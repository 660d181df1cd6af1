/**
 * The rendering driver: `RunTemplates` sets up the process-wide state,
 * resolves the auxiliary templates and hands over to `runTemplates`, which
 * renders the gathered templates one after another and stops at the first
 * failure; `runTemplate` compiles and executes one template and closes its
 * output afterwards.
 */
module Render {
  import opened Wrappers
  import opened Text
  import opened Aliases
  import opened Configuration

  // ---------------------------------------------------------------------
  // Entities
  // ---------------------------------------------------------------------

  /**
   * An output writer: whether it implements `io.Closer`, whether it is
   * `os.Stdout`, and how many times `Close` has been called on it.
   */
  class Target {
    const closable: bool
    const isStdout: bool
    var closed: nat

    constructor (closable: bool, isStdout: bool)
      ensures this.closable == closable && this.isStdout == isStdout && closed == 0
    {
      this.closable := closable;
      this.isStdout := isStdout;
      closed := 0;
    }
  }

  /**
   * A gathered template (`tplate`): its name, its output, and whether
   * `toGoTemplate` and `ExecuteTemplate` succeed on it.
   */
  datatype Item = Item(name: string, compiles: bool, executes: bool, target: Target)

  /** What `gatherTemplates` returns: an error, or the templates in order. */
  datatype Gathering = GatherFails | Gathers(items: seq<Item>)

  datatype Error =
    | DataSetupError
    | AliasError(cause: FsError)
    | GatherError
    | CompileError(template: string)
    | ExecuteError(template: string)

  /** The observable steps of a run, in the order they happen. */
  datatype Event =
    | SetupData
    | AddCleanupHook
    | ResolveAliases
    | Gather
    | Compile(template: string)
    | Execute(template: string)
    | Close(template: string)
    | RunCleanupHooks

  /** The fields of `Metrics`; the durations are recorded as "present" only. */
  datatype MetricsView = MetricsView(
    errors: nat,
    templatesGathered: nat,
    templatesProcessed: nat,
    gatherTimed: bool,
    totalRenderTimed: bool,
    renderTimed: set<string>)

  /** The metrics `newMetrics` returns. */
  const ZeroMetrics := MetricsView(0, 0, 0, false, false, {})

  /** The package-level `Metrics` variable. */
  class Metrics {
    var errors: nat
    var templatesGathered: nat
    var templatesProcessed: nat
    /** Whether `GatherDuration` has been set. */
    var gatherTimed: bool
    /** Whether `TotalRenderDuration` has been set. */
    var totalRenderTimed: bool
    /** The keys of `RenderDuration`. */
    var renderTimed: set<string>

    constructor ()
      ensures View() == ZeroMetrics
    {
      errors := 0;
      templatesGathered := 0;
      templatesProcessed := 0;
      gatherTimed := false;
      totalRenderTimed := false;
      renderTimed := {};
    }

    function View(): MetricsView
      reads this
    {
      MetricsView(errors, templatesGathered, templatesProcessed, gatherTimed, totalRenderTimed, renderTimed)
    }
  }

  /** The process-wide state the driver touches: the `Metrics` variable and the steps taken so far. */
  class Process {
    var metrics: Metrics
    var trace: seq<Event>

    constructor ()
      ensures fresh(metrics) && metrics.View() == ZeroMetrics && trace == []
    {
      metrics := new Metrics();
      trace := [];
    }
  }

  // ---------------------------------------------------------------------
  // What one template does
  // ---------------------------------------------------------------------

  /** A close is deferred when the template compiled and its target is a closer other than stdout. */
  predicate CloseScheduled(t: Item) {
    t.compiles && t.target.closable && !t.target.isStdout
  }

  /** The error `runTemplate` returns. */
  function ItemError(t: Item): Option<Error> {
    if !t.compiles then Some(CompileError(t.name))
    else if !t.executes then Some(ExecuteError(t.name))
    else None
  }

  /** The steps of `runTemplate`: compile; then execute; then the deferred close. */
  function ItemEvents(t: Item): seq<Event> {
    [Compile(t.name)]
    + (if t.compiles then [Execute(t.name)] else [])
    + (if CloseScheduled(t) then [Close(t.name)] else [])
  }

  // ---------------------------------------------------------------------
  // What the first `n` templates do
  // ---------------------------------------------------------------------

  /** The index of the first template from `i` on that fails, or the number of templates. */
  function FirstFailureFrom(items: seq<Item>, i: nat): (k: nat)
    requires i <= |items|
    ensures i <= k <= |items|
    ensures forall j :: i <= j < k ==> ItemError(items[j]).None?
    ensures k < |items| ==> ItemError(items[k]).Some?
    decreases |items| - i
  {
    if i == |items| then i
    else if ItemError(items[i]).Some? then i
    else FirstFailureFrom(items, i + 1)
  }

  function FirstFailure(items: seq<Item>): nat {
    FirstFailureFrom(items, 0)
  }

  /** How many templates `runTemplates` starts: those up to and including the first failure. */
  function Started(items: seq<Item>): nat {
    var k := FirstFailure(items);
    if k < |items| then k + 1 else |items|
  }

  function NamesOf(items: seq<Item>, n: nat): set<string>
    requires n <= |items|
  {
    if n == 0 then {} else NamesOf(items, n - 1) + {items[n - 1].name}
  }

  function EventsOf(items: seq<Item>, n: nat): seq<Event>
    requires n <= |items|
  {
    if n == 0 then [] else EventsOf(items, n - 1) + ItemEvents(items[n - 1])
  }

  /** How many of the first `n` templates schedule a close of target `t`. */
  function ClosesOf(items: seq<Item>, n: nat, t: Target): nat
    requires n <= |items|
  {
    if n == 0 then 0
    else ClosesOf(items, n - 1, t) + (if items[n - 1].target == t && CloseScheduled(items[n - 1]) then 1 else 0)
  }

  function Targets(items: seq<Item>): set<Target> {
    set j | 0 <= j < |items| :: items[j].target
  }

  function GatheredTargets(g: Gathering): set<Target> {
    if g.Gathers? then Targets(g.items) else {}
  }

  /** The metrics after the first `n` templates have been rendered without error. */
  function Progress(before: MetricsView, items: seq<Item>, n: nat): MetricsView
    requires n <= |items|
  {
    before.(templatesProcessed := before.templatesProcessed + n, renderTimed := before.renderTimed + NamesOf(items, n))
  }

  /** One round of the loop: the duration key is recorded, then an error or a processed template is counted. */
  function AfterOne(v: MetricsView, t: Item): MetricsView {
    v.(renderTimed := v.renderTimed + {t.name},
       errors := v.errors + (if ItemError(t).Some? then 1 else 0),
       templatesProcessed := v.templatesProcessed + (if ItemError(t).Some? then 0 else 1))
  }

  /** The metrics after the loop of `runTemplates`. */
  function EachMetrics(before: MetricsView, items: seq<Item>): MetricsView {
    var k := FirstFailure(items);
    if k < |items| then
      Progress(before, items, k).(errors := before.errors + 1, renderTimed := before.renderTimed + NamesOf(items, k + 1))
    else Progress(before, items, |items|)
  }

  /** The error of the loop of `runTemplates`. */
  function EachResult(items: seq<Item>): Option<Error> {
    var k := FirstFailure(items);
    if k < |items| then ItemError(items[k]) else None
  }

  // ---------------------------------------------------------------------
  // What `runTemplates` and `RunTemplates` do
  // ---------------------------------------------------------------------

  /** The metrics after `runTemplates`. */
  function AfterRender(m: MetricsView, g: Gathering): MetricsView {
    match g
    case GatherFails => m.(errors := m.errors + 1, gatherTimed := true)
    case Gathers(items) =>
      EachMetrics(m.(gatherTimed := true, templatesGathered := |items|), items).(totalRenderTimed := true)
  }

  /** The error `runTemplates` returns. */
  function RenderResult(g: Gathering): Option<Error> {
    match g
    case GatherFails => Some(GatherError)
    case Gathers(items) => EachResult(items)
  }

  /** The steps of `runTemplates`. */
  function RenderEvents(g: Gathering): seq<Event> {
    match g
    case GatherFails => [Gather]
    case Gathers(items) => [Gather] + EventsOf(items, Started(items))
  }

  /** How often `runTemplates` closes target `t`. */
  function RenderCloses(g: Gathering, t: Target): nat {
    match g
    case GatherFails => 0
    case Gathers(items) => ClosesOf(items, Started(items), t)
  }

  /** The steps of `RunTemplates` given the outcomes of data setup and alias resolution. */
  function RunEvents(dataSetup: bool, aliasErr: Option<FsError>, g: Gathering): seq<Event> {
    [SetupData] + SetupEvents(dataSetup, aliasErr, g) + [RunCleanupHooks]
  }

  /** The steps between data setup and the cleanup. */
  function SetupEvents(dataSetup: bool, aliasErr: Option<FsError>, g: Gathering): seq<Event> {
    if !dataSetup then []
    else if aliasErr.Some? then [AddCleanupHook, ResolveAliases]
    else [AddCleanupHook, ResolveAliases] + RenderEvents(g)
  }

  function RunResult(dataSetup: bool, aliasErr: Option<FsError>, g: Gathering): Option<Error> {
    if !dataSetup then Some(DataSetupError)
    else if aliasErr.Some? then Some(AliasError(aliasErr.value))
    else RenderResult(g)
  }

  function RunMetrics(dataSetup: bool, aliasErr: Option<FsError>, g: Gathering): MetricsView {
    if !dataSetup || aliasErr.Some? then ZeroMetrics else AfterRender(ZeroMetrics, g)
  }

  function RunCloses(dataSetup: bool, aliasErr: Option<FsError>, g: Gathering, t: Target): nat {
    if !dataSetup || aliasErr.Some? then 0 else RenderCloses(g, t)
  }

  // ---------------------------------------------------------------------
  // The imperative code
  // ---------------------------------------------------------------------

  /** `gomplate`; the function map built from the data sources is not modelled. */
  class Gomplate {
    const leftDelim: string
    const rightDelim: string
    const templateAliases: TemplateAliases

    /** `newGomplate`. */
    constructor (leftDelim: string, rightDelim: string, templateAliases: TemplateAliases)
      ensures this.leftDelim == leftDelim && this.rightDelim == rightDelim
      ensures this.templateAliases == templateAliases
    {
      this.leftDelim := leftDelim;
      this.rightDelim := rightDelim;
      this.templateAliases := templateAliases;
    }

    /** `runTemplate`: compile, then execute into the target, closing it afterwards. */
    method RunTemplate(t: Item, p: Process) returns (err: Option<Error>)
      modifies p, t.target
      ensures err == ItemError(t)
      ensures p.trace == old(p.trace) + ItemEvents(t)
      ensures p.metrics == old(p.metrics)
      ensures t.target.closed == old(t.target.closed) + (if CloseScheduled(t) then 1 else 0)
    {
      p.trace := p.trace + [Compile(t.name)];
      if !t.compiles {
        return Some(CompileError(t.name));
      }
      var closeLater := t.target.closable && !t.target.isStdout;
      p.trace := p.trace + [Execute(t.name)];
      err := if t.executes then None else Some(ExecuteError(t.name));
      if closeLater {
        t.target.closed := t.target.closed + 1;
        p.trace := p.trace + [Close(t.name)];
      }
    }

    /** `runTemplates`: render the gathered templates in order, stopping at the first error. */
    method RunTemplates(g: Gathering, p: Process) returns (err: Option<Error>)
      modifies p, p.metrics, GatheredTargets(g)
      ensures p.metrics == old(p.metrics)
      ensures p.metrics.View() == AfterRender(old(p.metrics.View()), g)
      ensures p.trace == old(p.trace) + RenderEvents(g)
      ensures err == RenderResult(g)
      ensures forall t :: t in GatheredTargets(g) ==> t.closed == old(t.closed) + RenderCloses(g, t)
    {
      p.trace := p.trace + [Gather];
      var m := p.metrics;
      m.gatherTimed := true;
      if g.GatherFails? {
        m.errors := m.errors + 1;
        return Some(GatherError);
      }
      m.templatesGathered := |g.items|;
      AppendAssociative(old(p.trace), [Gather], EventsOf(g.items, Started(g.items)));
      err := RenderEach(g.items, p);
      // the deferred `TotalRenderDuration` assignment, on both exits of the loop
      m.totalRenderTimed := true;
    }

    /** The loop of `runTemplates`. */
    method RenderEach(items: seq<Item>, p: Process) returns (err: Option<Error>)
      modifies p, p.metrics, Targets(items)
      ensures p.metrics == old(p.metrics)
      ensures err == EachResult(items)
      ensures p.metrics.View() == EachMetrics(old(p.metrics.View()), items)
      ensures p.trace == old(p.trace) + EventsOf(items, Started(items))
      ensures forall t :: t in Targets(items) ==> t.closed == old(t.closed) + ClosesOf(items, Started(items), t)
    {
      var m := p.metrics;
      ghost var before := m.View();
      ghost var trace := p.trace;
      for i := 0 to |items|
        invariant p.metrics == m
        invariant i <= FirstFailure(items)
        invariant m.View() == Progress(before, items, i)
        invariant p.trace == trace + EventsOf(items, i)
        invariant forall t :: t in Targets(items) ==> t.closed == old(t.closed) + ClosesOf(items, i, t)
      {
        label Before:
        err := RenderOne(items[i], p);
        forall t | t in Targets(items)
          ensures t.closed == old(t.closed) + ClosesOf(items, i + 1, t)
        {
          assert t.closed == old@Before(t.closed) + (if items[i].target == t && CloseScheduled(items[i]) then 1 else 0);
        }
        AppendAssociative(trace, EventsOf(items, i), ItemEvents(items[i]));
        if err.Some? {
          FirstFailureHere(before, items, i);
          return;
        }
        FirstFailurePast(before, items, i);
      }
      NoFailure(before, items);
      err := None;
    }

    /** One round of the loop of `runTemplates`: render, record the duration key, count. */
    method RenderOne(t: Item, p: Process) returns (err: Option<Error>)
      modifies p, p.metrics, t.target
      ensures err == ItemError(t)
      ensures p.metrics == old(p.metrics)
      ensures p.metrics.View() == AfterOne(old(p.metrics.View()), t)
      ensures p.trace == old(p.trace) + ItemEvents(t)
      ensures t.target.closed == old(t.target.closed) + (if CloseScheduled(t) then 1 else 0)
    {
      var m := p.metrics;
      err := RunTemplate(t, p);
      m.renderTimed := m.renderTimed + {t.name};
      if err.Some? {
        m.errors := m.errors + 1;
      } else {
        m.templatesProcessed := m.templatesProcessed + 1;
      }
    }
  }

  /** `RunTemplates`: set up, resolve the auxiliary templates, render, and always run the cleanup hooks. */
  method RunTemplates(o: Config, dataSetup: bool, fs: FileSystem, join: JoinFn, g: Gathering, p: Process)
    returns (err: Option<Error>)
    modifies p, GatheredTargets(g)
    ensures fresh(p.metrics)
    ensures p.metrics.View() == RunMetrics(dataSetup, Resolve(o.additionalTemplates, fs, join).err, g)
    ensures p.trace == old(p.trace) + RunEvents(dataSetup, Resolve(o.additionalTemplates, fs, join).err, g)
    ensures err == RunResult(dataSetup, Resolve(o.additionalTemplates, fs, join).err, g)
    ensures forall t :: t in GatheredTargets(g) ==>
      t.closed == old(t.closed) + RunCloses(dataSetup, Resolve(o.additionalTemplates, fs, join).err, g, t)
  {
    ghost var aliasOutcome := Resolve(o.additionalTemplates, fs, join).err;
    RunEventsSteps(p.trace, dataSetup, aliasOutcome, g);
    p.metrics := new Metrics();
    p.trace := p.trace + [SetupData];
    if !dataSetup {
      p.trace := p.trace + [RunCleanupHooks];
      return Some(DataSetupError);
    }
    p.trace := p.trace + [AddCleanupHook];
    var templates, aliasErr := ParseTemplateArgs(o.additionalTemplates, fs, join);
    p.trace := p.trace + [ResolveAliases];
    if aliasErr.Some? {
      p.trace := p.trace + [RunCleanupHooks];
      return Some(AliasError(aliasErr.value));
    }
    var gomplate := new Gomplate(o.lDelim, o.rDelim, templates);
    err := gomplate.RunTemplates(g, p);
    p.trace := p.trace + [RunCleanupHooks];
  }

  // ---------------------------------------------------------------------
  // Helpers for the loop
  // ---------------------------------------------------------------------

  /** `RunEvents` appended step by step, in the order `RunTemplates` appends them. */
  lemma RunEventsSteps(t: seq<Event>, dataSetup: bool, aliasErr: Option<FsError>, g: Gathering)
    ensures !dataSetup ==> t + RunEvents(dataSetup, aliasErr, g) == t + [SetupData] + [RunCleanupHooks]
    ensures dataSetup && aliasErr.Some? ==>
      t + RunEvents(dataSetup, aliasErr, g) == t + [SetupData] + [AddCleanupHook] + [ResolveAliases] + [RunCleanupHooks]
    ensures dataSetup && aliasErr.None? ==>
      t + RunEvents(dataSetup, aliasErr, g)
      == t + [SetupData] + [AddCleanupHook] + [ResolveAliases] + RenderEvents(g) + [RunCleanupHooks]
  {
  }

  lemma FirstFailurePast(before: MetricsView, items: seq<Item>, i: nat)
    requires i < |items| && i <= FirstFailure(items) && ItemError(items[i]).None?
    ensures i + 1 <= FirstFailure(items)
    ensures AfterOne(Progress(before, items, i), items[i]) == Progress(before, items, i + 1)
  {
  }

  lemma FirstFailureHere(before: MetricsView, items: seq<Item>, i: nat)
    requires i < |items| && i <= FirstFailure(items) && ItemError(items[i]).Some?
    ensures FirstFailure(items) == i && Started(items) == i + 1
    ensures EachResult(items) == ItemError(items[i])
    ensures EachMetrics(before, items) == AfterOne(Progress(before, items, i), items[i])
  {
  }

  lemma NoFailure(before: MetricsView, items: seq<Item>)
    requires |items| <= FirstFailure(items)
    ensures Started(items) == |items| && EachResult(items) == None
    ensures EachMetrics(before, items) == Progress(before, items, |items|)
  {
  }

  // ---------------------------------------------------------------------
  // Properties
  // ---------------------------------------------------------------------

  /** On a gather failure the error count goes up by one and no template runs. */
  lemma GatherFailure(m: MetricsView)
    ensures AfterRender(m, GatherFails) == m.(errors := m.errors + 1, gatherTimed := true)
    ensures RenderEvents(GatherFails) == [Gather]
    ensures RenderResult(GatherFails) == Some(GatherError)
  {
  }

  /**
   * When template `k` is the first to fail: `k` more are processed, one more
   * error is counted, exactly templates `0..k` have a render duration, only
   * they are started, and the run returns template `k`'s error.
   */
  lemma FirstFailureCounters(m: MetricsView, items: seq<Item>, k: nat)
    requires k < |items| && ItemError(items[k]).Some?
    requires forall j :: 0 <= j < k ==> ItemError(items[j]).None?
    ensures AfterRender(m, Gathers(items)).templatesGathered == |items|
    ensures AfterRender(m, Gathers(items)).templatesProcessed == m.templatesProcessed + k
    ensures AfterRender(m, Gathers(items)).errors == m.errors + 1
    ensures AfterRender(m, Gathers(items)).renderTimed == m.renderTimed + NamesOf(items, k + 1)
    ensures RenderEvents(Gathers(items)) == [Gather] + EventsOf(items, k + 1)
    ensures RenderResult(Gathers(items)) == ItemError(items[k])
  {
  }

  /** When every template succeeds, all are processed and no error is counted. */
  lemma AllSucceedCounters(m: MetricsView, items: seq<Item>)
    requires forall j :: 0 <= j < |items| ==> ItemError(items[j]).None?
    ensures AfterRender(m, Gathers(items)).templatesGathered == |items|
    ensures AfterRender(m, Gathers(items)).templatesProcessed == m.templatesProcessed + |items|
    ensures AfterRender(m, Gathers(items)).errors == m.errors
    ensures AfterRender(m, Gathers(items)).renderTimed == m.renderTimed + NamesOf(items, |items|)
    ensures RenderEvents(Gathers(items)) == [Gather] + EventsOf(items, |items|)
    ensures RenderResult(Gathers(items)) == None
  {
  }

  /** The render durations are keyed by exactly the names of the first `n` templates. */
  lemma {:induction false} NamesOfPrefix(items: seq<Item>, n: nat)
    requires n <= |items|
    ensures NamesOf(items, n) == set j | 0 <= j < n :: items[j].name
  {
    if n > 0 {
      NamesOfPrefix(items, n - 1);
      assert (set j | 0 <= j < n :: items[j].name) == (set j | 0 <= j < n - 1 :: items[j].name) + {items[n - 1].name};
    }
  }

  /** Rendering succeeds exactly when every gathered template compiles and executes. */
  lemma RenderSucceedsIff(items: seq<Item>)
    ensures RenderResult(Gathers(items)).None? <==>
      forall j :: 0 <= j < |items| ==> items[j].compiles && items[j].executes
  {
  }

  /**
   * Starting from fresh metrics, every started template is either processed
   * or the one error counted, so processed plus errors never exceeds gathered.
   */
  lemma MetricsBalance(items: seq<Item>)
    ensures AfterRender(ZeroMetrics, Gathers(items)).templatesProcessed + AfterRender(ZeroMetrics, Gathers(items)).errors
      == Started(items) <= |items|
    ensures AfterRender(ZeroMetrics, Gathers(items)).templatesGathered == |items|
  {
  }

  /** `os.Stdout` is never closed. */
  lemma {:induction false} StdoutNeverClosed(items: seq<Item>, n: nat, t: Target)
    requires n <= |items| && t.isStdout
    ensures ClosesOf(items, n, t) == 0
  {
    if n > 0 {
      StdoutNeverClosed(items, n - 1, t);
    }
  }

  /**
   * When the templates write to distinct targets, the target of a started
   * template is closed once if the template compiled into a closer other
   * than stdout, and not at all otherwise, whether or not execution succeeded.
   */
  lemma {:induction false} ClosedOnce(items: seq<Item>, n: nat, k: nat)
    requires k < n <= |items|
    requires forall a, b :: 0 <= a < |items| && 0 <= b < |items| && items[a].target == items[b].target ==> a == b
    ensures ClosesOf(items, n, items[k].target) == if CloseScheduled(items[k]) then 1 else 0
  {
    if k < n - 1 {
      ClosedOnce(items, n - 1, k);
    } else {
      NotAmong(items, n - 1, items[k].target);
    }
  }

  lemma {:induction false} NotAmong(items: seq<Item>, n: nat, t: Target)
    requires n <= |items|
    requires forall j :: 0 <= j < n ==> items[j].target != t
    ensures ClosesOf(items, n, t) == 0
  {
    if n > 0 {
      NotAmong(items, n - 1, t);
    }
  }

  /** A template that does not compile is neither executed nor closed. */
  lemma CompileFailureStops(t: Item)
    requires !t.compiles
    ensures ItemEvents(t) == [Compile(t.name)]
    ensures !CloseScheduled(t) && ItemError(t) == Some(CompileError(t.name))
  {
  }

  /** The steps of the templates are only compile, execute and close steps. */
  lemma {:induction false} EventsOfKinds(items: seq<Item>, n: nat)
    requires n <= |items|
    ensures forall e :: e in EventsOf(items, n) ==> e.Compile? || e.Execute? || e.Close?
  {
    if n > 0 {
      EventsOfKinds(items, n - 1);
    }
  }

  /** The deferred cleanup runs exactly once, as the very last step, on every path. */
  lemma CleanupRunsLast(dataSetup: bool, aliasErr: Option<FsError>, g: Gathering)
    ensures |RunEvents(dataSetup, aliasErr, g)| >= 2
    ensures RunEvents(dataSetup, aliasErr, g)[|RunEvents(dataSetup, aliasErr, g)| - 1] == RunCleanupHooks
    ensures RunCleanupHooks !in RunEvents(dataSetup, aliasErr, g)[..|RunEvents(dataSetup, aliasErr, g)| - 1]
  {
    var ev := RunEvents(dataSetup, aliasErr, g);
    if g.Gathers? {
      EventsOfKinds(g.items, Started(g.items));
    }
    assert ev[..|ev| - 1] == [SetupData] + SetupEvents(dataSetup, aliasErr, g);
  }

  /**
   * Data setup comes first; the cleanup hook is registered exactly when it
   * succeeds, before the aliases are resolved; templates are gathered only
   * when both succeed.
   */
  lemma SetupOrder(dataSetup: bool, aliasErr: Option<FsError>, g: Gathering)
    ensures RunEvents(dataSetup, aliasErr, g)[0] == SetupData
    ensures AddCleanupHook in RunEvents(dataSetup, aliasErr, g) <==> dataSetup
    ensures dataSetup ==>
      RunEvents(dataSetup, aliasErr, g)[1] == AddCleanupHook && RunEvents(dataSetup, aliasErr, g)[2] == ResolveAliases
    ensures Gather in RunEvents(dataSetup, aliasErr, g) <==> dataSetup && aliasErr.None?
  {
    if g.Gathers? {
      EventsOfKinds(g.items, Started(g.items));
    }
  }
}
