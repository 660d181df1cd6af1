/**
 * The auxiliary-template resolver: `parseTemplateArgs` and `parseTemplateArg`
 * turn `[alias=]path` arguments into a map from template name to file path,
 * reading the filesystem for each path.
 */
module Aliases {
  import opened Wrappers
  import opened Text

  // ---------------------------------------------------------------------
  // The filesystem as the resolver sees it
  // ---------------------------------------------------------------------

  /** One entry of a directory listing (`os.FileInfo`): its base name and whether it is a directory. */
  datatype Entry = Entry(name: string, isDir: bool)

  /** What `os.Stat` finds at a path; a directory carries the result of `ioutil.ReadDir` (None: it fails). */
  datatype Node = File | Dir(listing: Option<seq<Entry>>)

  /** A path that is not in the map is one `os.Stat` fails on. */
  type FileSystem = map<string, Node>

  datatype FsError = StatError(path: string) | ReadDirError(path: string)

  /** `filepath.Join`, left uninterpreted. */
  type JoinFn = (string, string) -> string

  // ---------------------------------------------------------------------
  // Map updates as an ordered log of writes
  // ---------------------------------------------------------------------

  /** One assignment `ta[key] = value`. */
  type Write = (string, string)

  /** The map after performing the writes in order. */
  function Apply(m: map<string, string>, ws: seq<Write>): map<string, string> {
    if ws == [] then m
    else Apply(m, ws[..|ws| - 1])[ws[|ws| - 1].0 := ws[|ws| - 1].1]
  }

  predicate Written(ws: seq<Write>, k: string) {
    exists i :: 0 <= i < |ws| && ws[i].0 == k
  }

  /** `ws[i]` is the last write to key `k`. */
  predicate IsLastWrite(ws: seq<Write>, k: string, i: nat) {
    i < |ws| && ws[i].0 == k && forall j :: i < j < |ws| ==> ws[j].0 != k
  }

  lemma ApplySnoc(m: map<string, string>, ws: seq<Write>, w: Write)
    ensures Apply(m, ws + [w]) == Apply(m, ws)[w.0 := w.1]
  {
    assert (ws + [w])[..|ws|] == ws;
  }

  /** The last write to a key decides its value. */
  lemma {:induction false} ApplyLastWins(m: map<string, string>, ws: seq<Write>, k: string, i: nat)
    requires IsLastWrite(ws, k, i)
    ensures k in Apply(m, ws) && Apply(m, ws)[k] == ws[i].1
  {
    if i < |ws| - 1 {
      ApplyLastWins(m, ws[..|ws| - 1], k, i);
    }
  }

  /** A key no write touches keeps its presence and its value. */
  lemma {:induction false} ApplyUnwritten(m: map<string, string>, ws: seq<Write>, k: string)
    requires !Written(ws, k)
    ensures k in Apply(m, ws) <==> k in m
    ensures k in m ==> Apply(m, ws)[k] == m[k]
  {
    if ws != [] {
      var init := ws[..|ws| - 1];
      assert forall i :: 0 <= i < |init| ==> init[i] == ws[i];
      ApplyUnwritten(m, init, k);
    }
  }

  /** For a key the writes touch, the starting map does not matter. */
  lemma {:induction false} ApplyWrittenIndependent(m1: map<string, string>, m2: map<string, string>, ws: seq<Write>, k: string)
    requires Written(ws, k)
    ensures k in Apply(m1, ws) && k in Apply(m2, ws) && Apply(m1, ws)[k] == Apply(m2, ws)[k]
  {
    var last := ws[|ws| - 1];
    if last.0 != k {
      var init := ws[..|ws| - 1];
      var i :| 0 <= i < |ws| && ws[i].0 == k;
      assert init[i].0 == k;
      ApplyWrittenIndependent(m1, m2, init, k);
    }
  }

  /** Performing `a` then `b` is performing `a + b`. */
  lemma {:induction false} ApplyConcat(m: map<string, string>, a: seq<Write>, b: seq<Write>)
    ensures Apply(m, a + b) == Apply(Apply(m, a), b)
  {
    if b == [] {
      assert a + b == a;
    } else {
      var b' := b[..|b| - 1];
      assert (a + b)[..|a + b| - 1] == a + b';
      ApplyConcat(m, a, b');
    }
  }

  // ---------------------------------------------------------------------
  // What one argument writes
  // ---------------------------------------------------------------------

  /** The alias and the path of an argument `[alias=]path`; the alias is empty without `=`. */
  function AliasAndPath(templateArg: string): (string, string) {
    var parts := SplitAtEquals(templateArg);
    if |parts| > 1 then (parts[0], parts[1]) else ("", parts[0])
  }

  /** The writes of the loop over a directory listing: one per entry that is not a directory. */
  function DirWrites(prefix: string, path: string, files: seq<Entry>, join: JoinFn): seq<Write> {
    if files == [] then []
    else
      var f := files[|files| - 1];
      DirWrites(prefix, path, files[..|files| - 1], join)
      + (if !f.isDir then [(join(prefix, f.name), join(path, f.name))] else [])
  }

  /** A listing's last entry adds one write if it is a file and none if it is a directory. */
  lemma DirWritesSnoc(prefix: string, path: string, files: seq<Entry>, join: JoinFn)
    requires files != []
    ensures var f := files[|files| - 1];
      !f.isDir ==>
        (DirWrites(prefix, path, files, join)
         == DirWrites(prefix, path, files[..|files| - 1], join) + [(join(prefix, f.name), join(path, f.name))])
    ensures files[|files| - 1].isDir ==>
      DirWrites(prefix, path, files, join) == DirWrites(prefix, path, files[..|files| - 1], join)
  {
    var ws := DirWrites(prefix, path, files[..|files| - 1], join);
    assert ws + [] == ws;
  }

  /** What `parseTemplateArg` writes into the map, or the error it returns. */
  function ArgWrites(templateArg: string, fs: FileSystem, join: JoinFn): Result<seq<Write>, FsError> {
    var (alias, path) := AliasAndPath(templateArg);
    if path !in fs then Failure(StatError(path))
    else
      match fs[path]
      case File => Success([(if alias != "" then alias else path, path)])
      case Dir(listing) =>
        if listing.None? then Failure(ReadDirError(path))
        else Success(DirWrites(if alias != "" then alias else path, path, listing.value, join))
  }

  // ---------------------------------------------------------------------
  // What a list of arguments writes
  // ---------------------------------------------------------------------

  /** The writes of the arguments processed, and the error that stopped processing, if any. */
  datatype Resolution = Resolution(writes: seq<Write>, err: Option<FsError>)

  type Outcome = Result<seq<Write>, FsError>

  /** The outcomes of the arguments in order, stopping at the first failure. */
  function Combine(outcomes: seq<Outcome>): Resolution {
    if outcomes == [] then Resolution([], None)
    else
      var prev := Combine(outcomes[..|outcomes| - 1]);
      if prev.err.Some? then prev
      else
        match outcomes[|outcomes| - 1]
        case Failure(e) => Resolution(prev.writes, Some(e))
        case Success(ws) => Resolution(prev.writes + ws, None)
  }

  /** What each argument would do on its own. */
  function Outcomes(args: seq<string>, fs: FileSystem, join: JoinFn): (r: seq<Outcome>)
    ensures |r| == |args| && forall i :: 0 <= i < |args| ==> r[i] == ArgWrites(args[i], fs, join)
  {
    seq(|args|, i requires 0 <= i < |args| => ArgWrites(args[i], fs, join))
  }

  /** `parseTemplateArgs`: the arguments in order, stopping at the first that fails. */
  function Resolve(args: seq<string>, fs: FileSystem, join: JoinFn): Resolution {
    Combine(Outcomes(args, fs, join))
  }

  lemma OutcomesPrefix(args: seq<string>, n: nat, fs: FileSystem, join: JoinFn)
    requires n <= |args|
    ensures Outcomes(args[..n], fs, join) == Outcomes(args, fs, join)[..n]
  {
  }

  lemma OutcomesAppend(a: seq<string>, b: seq<string>, fs: FileSystem, join: JoinFn)
    ensures Outcomes(a + b, fs, join) == Outcomes(a, fs, join) + Outcomes(b, fs, join)
  {
  }

  // ---------------------------------------------------------------------
  // The imperative code
  // ---------------------------------------------------------------------

  /** `templateAliases`, a Go map that the resolver fills in place. */
  class TemplateAliases {
    var entries: map<string, string>

    constructor ()
      ensures entries == map[]
    {
      entries := map[];
    }
  }

  /** `parseTemplateArg`: add the names that one argument defines to `ta`. */
  method ParseTemplateArg(templateArg: string, ta: TemplateAliases, fs: FileSystem, join: JoinFn)
    returns (err: Option<FsError>)
    modifies ta
    ensures ArgWrites(templateArg, fs, join).Failure? ==>
      err == Some(ArgWrites(templateArg, fs, join).error) && ta.entries == old(ta.entries)
    ensures ArgWrites(templateArg, fs, join).Success? ==>
      err == None && ta.entries == Apply(old(ta.entries), ArgWrites(templateArg, fs, join).value)
  {
    var parts := SplitAtEquals(templateArg);
    var path := parts[0];
    var alias := "";
    if |parts| > 1 {
      alias := parts[0];
      path := parts[1];
    }
    if path !in fs {
      return Some(StatError(path));
    }
    match fs[path] {
    case Dir(listing) =>
      if listing.None? {
        return Some(ReadDirError(path));
      }
      var files := listing.value;
      var prefix := path;
      if alias != "" {
        prefix := alias;
      }
      for i := 0 to |files|
        invariant ta.entries == Apply(old(ta.entries), DirWrites(prefix, path, files[..i], join))
      {
        var f := files[i];
        assert files[..i + 1][..i] == files[..i];
        assert files[..i + 1][i] == f;
        if !f.isDir {
          ApplySnoc(old(ta.entries), DirWrites(prefix, path, files[..i], join), (join(prefix, f.name), join(path, f.name)));
          assert DirWrites(prefix, path, files[..i + 1], join) ==
            DirWrites(prefix, path, files[..i], join) + [(join(prefix, f.name), join(path, f.name))];
          ta.entries := ta.entries[join(prefix, f.name) := join(path, f.name)];
        } else {
          DirWritesSnoc(prefix, path, files[..i + 1], join);
        }
      }
      assert files[..|files|] == files;
    case File =>
      if alias != "" {
        ta.entries := ta.entries[alias := path];
      } else {
        ta.entries := ta.entries[path := path];
      }
      assert Apply(old(ta.entries), [(if alias != "" then alias else path, path)]) == ta.entries by {
        ApplySnoc(old(ta.entries), [], (if alias != "" then alias else path, path));
      }
    }
    return None;
  }

  /** `parseTemplateArgs`: resolve every argument in order into a fresh map, stopping at the first error. */
  method ParseTemplateArgs(templateArgs: seq<string>, fs: FileSystem, join: JoinFn)
    returns (ta: TemplateAliases, err: Option<FsError>)
    ensures fresh(ta)
    ensures ta.entries == Apply(map[], Resolve(templateArgs, fs, join).writes)
    ensures err == Resolve(templateArgs, fs, join).err
  {
    ta := new TemplateAliases();
    ghost var outcomes := Outcomes(templateArgs, fs, join);
    for i := 0 to |templateArgs|
      invariant Combine(outcomes[..i]).err == None
      invariant ta.entries == Apply(map[], Combine(outcomes[..i]).writes)
    {
      assert outcomes[i] == ArgWrites(templateArgs[i], fs, join);
      CombineStep(outcomes, i);
      err := ParseTemplateArg(templateArgs[i], ta, fs, join);
      if err.Some? {
        CombineSticky(outcomes, i + 1);
        return;
      }
      ApplyConcat(map[], Combine(outcomes[..i]).writes, outcomes[i].value);
    }
    CombineAll(outcomes);
    err := None;
  }

  // ---------------------------------------------------------------------
  // Properties
  // ---------------------------------------------------------------------

  /** Once an argument has failed, the later ones change nothing. */
  lemma {:induction false} CombineSticky(outcomes: seq<Outcome>, n: nat)
    requires n <= |outcomes| && Combine(outcomes[..n]).err.Some?
    ensures Combine(outcomes) == Combine(outcomes[..n])
    decreases |outcomes| - n
  {
    if n < |outcomes| {
      assert outcomes[..n + 1][..n] == outcomes[..n];
      CombineSticky(outcomes, n + 1);
    } else {
      assert outcomes[..n] == outcomes;
    }
  }

  lemma {:induction false} CombineSucceeds(outcomes: seq<Outcome>)
    ensures Combine(outcomes).err.None? <==> forall j :: 0 <= j < |outcomes| ==> outcomes[j].Success?
  {
    if outcomes != [] {
      var init := outcomes[..|outcomes| - 1];
      CombineSucceeds(init);
      assert forall j :: 0 <= j < |init| ==> init[j] == outcomes[j];
    }
  }

  lemma {:induction false} CombineAppend(a: seq<Outcome>, b: seq<Outcome>)
    requires Combine(a).err == None
    ensures Combine(a + b) == Resolution(Combine(a).writes + Combine(b).writes, Combine(b).err)
  {
    if b == [] {
      assert a + b == a;
    } else {
      var b' := b[..|b| - 1];
      assert (a + b)[..|a + b| - 1] == a + b';
      assert (a + b)[|a + b| - 1] == b[|b| - 1];
      CombineAppend(a, b');
    }
  }

  /** Resolution succeeds exactly when every argument does. */
  lemma ResolveSucceeds(args: seq<string>, fs: FileSystem, join: JoinFn)
    ensures Resolve(args, fs, join).err.None? <==>
      forall j :: 0 <= j < |args| ==> ArgWrites(args[j], fs, join).Success?
  {
    CombineSucceeds(Outcomes(args, fs, join));
  }

  /** One more outcome after a successful prefix: its error stops, its writes are added. */
  lemma CombineStep(outcomes: seq<Outcome>, i: nat)
    requires i < |outcomes| && Combine(outcomes[..i]).err == None
    ensures outcomes[i].Failure? ==>
      Combine(outcomes[..i + 1]) == Resolution(Combine(outcomes[..i]).writes, Some(outcomes[i].error))
    ensures outcomes[i].Success? ==>
      Combine(outcomes[..i + 1]) == Resolution(Combine(outcomes[..i]).writes + outcomes[i].value, None)
  {
    assert outcomes[..i + 1][..i] == outcomes[..i];
  }

  lemma CombineAll(outcomes: seq<Outcome>)
    ensures Combine(outcomes[..|outcomes|]) == Combine(outcomes)
  {
    assert outcomes[..|outcomes|] == outcomes;
  }

  /** The first failing outcome decides the error; the successes before it decide the writes. */
  lemma CombineFirstFailure(outcomes: seq<Outcome>, k: nat)
    requires k < |outcomes| && outcomes[k].Failure?
    requires forall j :: 0 <= j < k ==> outcomes[j].Success?
    ensures Combine(outcomes[..k]).err == None
    ensures Combine(outcomes) == Resolution(Combine(outcomes[..k]).writes, Some(outcomes[k].error))
  {
    var pre := outcomes[..k];
    assert forall j :: 0 <= j < |pre| ==> pre[j] == outcomes[j];
    CombineSucceeds(pre);
    CombineStep(outcomes, k);
    CombineSticky(outcomes, k + 1);
  }

  /**
   * If argument `k` is the first one that fails, resolution returns its error
   * together with the writes of the arguments before it, and nothing else.
   */
  lemma FirstFailingArgument(args: seq<string>, k: nat, fs: FileSystem, join: JoinFn)
    requires k < |args|
    requires forall j :: 0 <= j < k ==> ArgWrites(args[j], fs, join).Success?
    requires ArgWrites(args[k], fs, join).Failure?
    ensures Resolve(args[..k], fs, join).err == None
    ensures Resolve(args, fs, join) ==
      Resolution(Resolve(args[..k], fs, join).writes, Some(ArgWrites(args[k], fs, join).error))
  {
    var outcomes := Outcomes(args, fs, join);
    OutcomesPrefix(args, k, fs, join);
    CombineFirstFailure(outcomes, k);
  }

  /** Resolving `a + b` after `a` succeeded is resolving `b` on top of `a`'s writes. */
  lemma ResolveAppend(a: seq<string>, b: seq<string>, fs: FileSystem, join: JoinFn)
    requires Resolve(a, fs, join).err == None
    ensures Resolve(a + b, fs, join) ==
      Resolution(Resolve(a, fs, join).writes + Resolve(b, fs, join).writes, Resolve(b, fs, join).err)
  {
    OutcomesAppend(a, b, fs, join);
    CombineAppend(Outcomes(a, fs, join), Outcomes(b, fs, join));
  }

  /**
   * Later arguments override earlier ones: for a name that the arguments `b`
   * define, the earlier arguments `a` make no difference to the final map.
   */
  lemma LaterArgumentsWin(a: seq<string>, b: seq<string>, k: string, fs: FileSystem, join: JoinFn)
    requires Resolve(a + b, fs, join).err == None
    requires Written(Resolve(b, fs, join).writes, k)
    ensures k in Apply(map[], Resolve(a + b, fs, join).writes) && k in Apply(map[], Resolve(b, fs, join).writes)
    ensures Apply(map[], Resolve(a + b, fs, join).writes)[k] == Apply(map[], Resolve(b, fs, join).writes)[k]
  {
    OutcomesAppend(a, b, fs, join);
    var oa := Outcomes(a, fs, join);
    var ob := Outcomes(b, fs, join);
    CombineSucceeds(oa + ob);
    CombineSucceeds(oa);
    assert forall j :: 0 <= j < |oa| ==> (oa + ob)[j] == oa[j];
    CombineAppend(oa, ob);
    var wa := Resolve(a, fs, join).writes;
    var wb := Resolve(b, fs, join).writes;
    ApplyConcat(map[], wa, wb);
    ApplyWrittenIndependent(Apply(map[], wa), map[], wb, k);
  }

  /** A file argument `alias=path` defines exactly the name `alias`, for `path`. */
  lemma AliasedFile(m: map<string, string>, alias: string, path: string, fs: FileSystem, join: JoinFn)
    requires '=' !in alias && alias != ""
    requires path in fs && fs[path] == File
    ensures ArgWrites(alias + "=" + path, fs, join) == Success([(alias, path)])
    ensures Apply(m, [(alias, path)]) == m[alias := path]
  {
    SplitAtFirstEquals(alias, path);
    ApplySnoc(m, [], (alias, path));
  }

  /** A file argument without `=` makes the file known by its own path. */
  lemma PlainFile(m: map<string, string>, path: string, fs: FileSystem, join: JoinFn)
    requires '=' !in path
    requires path in fs && fs[path] == File
    ensures ArgWrites(path, fs, join) == Success([(path, path)])
    ensures Apply(m, [(path, path)]) == m[path := path]
  {
    ApplySnoc(m, [], (path, path));
  }

  /** A failing stat or directory listing is the argument's error, and the map stays as it was. */
  lemma UnreadablePath(alias: string, path: string, fs: FileSystem, join: JoinFn)
    requires '=' !in alias
    requires path !in fs || fs[path] == Dir(None)
    ensures ArgWrites(alias + "=" + path, fs, join) ==
      Failure(if path !in fs then StatError(path) else ReadDirError(path))
  {
    SplitAtFirstEquals(alias, path);
  }

  /** The same failure for a plain path without `=`. */
  lemma UnreadablePlainPath(path: string, fs: FileSystem, join: JoinFn)
    requires '=' !in path
    requires path !in fs || fs[path] == Dir(None)
    ensures ArgWrites(path, fs, join) ==
      Failure(if path !in fs then StatError(path) else ReadDirError(path))
  {
  }

  /** A readable directory argument `alias=path` writes its listing under the alias, or under the path when the alias is empty. */
  lemma DirectoryArgument(alias: string, path: string, files: seq<Entry>, fs: FileSystem, join: JoinFn)
    requires '=' !in alias
    requires path in fs && fs[path] == Dir(Some(files))
    ensures ArgWrites(alias + "=" + path, fs, join) ==
      Success(DirWrites(if alias != "" then alias else path, path, files, join))
  {
    SplitAtFirstEquals(alias, path);
  }

  /** A readable directory argument without `=` writes its listing under its own path. */
  lemma PlainDirectoryArgument(path: string, files: seq<Entry>, fs: FileSystem, join: JoinFn)
    requires '=' !in path
    requires path in fs && fs[path] == Dir(Some(files))
    ensures ArgWrites(path, fs, join) == Success(DirWrites(path, path, files, join))
  {
  }

  /** The names a directory listing defines: `join(prefix, name)` for each entry that is not a directory. */
  function FileNames(prefix: string, files: seq<Entry>, join: JoinFn): set<string> {
    set i | 0 <= i < |files| && !files[i].isDir :: join(prefix, files[i].name)
  }

  /** The names of a listing are those of all but its last entry, plus the last entry's if it is a file. */
  lemma FileNamesSnoc(prefix: string, files: seq<Entry>, join: JoinFn)
    requires files != []
    ensures var f := files[|files| - 1];
      FileNames(prefix, files, join)
      == FileNames(prefix, files[..|files| - 1], join) + (if !f.isDir then {join(prefix, f.name)} else {})
  {
    var init := files[..|files| - 1];
    assert forall i :: 0 <= i < |init| ==> init[i] == files[i];
  }

  /** A directory argument defines exactly the names of its file entries; sub-directories add nothing. */
  lemma {:induction false} DirectoryKeys(m: map<string, string>, prefix: string, path: string, files: seq<Entry>, join: JoinFn)
    ensures Apply(m, DirWrites(prefix, path, files, join)).Keys == m.Keys + FileNames(prefix, files, join)
  {
    if files != [] {
      var init := files[..|files| - 1];
      var f := files[|files| - 1];
      DirectoryKeys(m, prefix, path, init, join);
      FileNamesSnoc(prefix, files, join);
      if !f.isDir {
        ApplySnoc(m, DirWrites(prefix, path, init, join), (join(prefix, f.name), join(path, f.name)));
      } else {
        DirWritesSnoc(prefix, path, files, join);
      }
    }
  }

  /** Names a directory listing does not define keep their presence and their value. */
  lemma {:induction false} DirectoryKeepsOthers(m: map<string, string>, prefix: string, path: string, files: seq<Entry>, join: JoinFn, k: string)
    requires k !in FileNames(prefix, files, join)
    ensures k in Apply(m, DirWrites(prefix, path, files, join)) <==> k in m
    ensures k in m ==> Apply(m, DirWrites(prefix, path, files, join))[k] == m[k]
  {
    if files != [] {
      var init := files[..|files| - 1];
      var f := files[|files| - 1];
      FileNamesSnoc(prefix, files, join);
      DirectoryKeepsOthers(m, prefix, path, init, join, k);
      if !f.isDir {
        ApplySnoc(m, DirWrites(prefix, path, init, join), (join(prefix, f.name), join(path, f.name)));
      } else {
        DirWritesSnoc(prefix, path, files, join);
      }
    }
  }

  /**
   * A file entry `f` of the listing maps `join(prefix, f)` to `join(path, f)`,
   * provided no other entry joins to the same name (as for the distinct names
   * of one directory under `filepath.Join`).
   */
  lemma {:induction false} DirectoryValue(m: map<string, string>, prefix: string, path: string, files: seq<Entry>, join: JoinFn, i: nat)
    requires i < |files| && !files[i].isDir
    requires forall j :: 0 <= j < |files| && j != i ==> join(prefix, files[j].name) != join(prefix, files[i].name)
    ensures join(prefix, files[i].name) in Apply(m, DirWrites(prefix, path, files, join))
    ensures Apply(m, DirWrites(prefix, path, files, join))[join(prefix, files[i].name)] == join(path, files[i].name)
  {
    var n := |files| - 1;
    var init := files[..n];
    var f := files[n];
    var ws := DirWrites(prefix, path, init, join);
    if i == n {
      ApplySnoc(m, ws, (join(prefix, f.name), join(path, f.name)));
    } else {
      assert forall j :: 0 <= j < n ==> init[j] == files[j];
      DirectoryValue(m, prefix, path, init, join, i);
      if !f.isDir {
        ApplySnoc(m, ws, (join(prefix, f.name), join(path, f.name)));
      } else {
        DirWritesSnoc(prefix, path, files, join);
      }
    }
  }
}
