# gomplate's orchestration layer, in Dafny

This project models `gomplate.go`, the layer of gomplate that sits between the
command line and `text/template`:

- **`Config.getMode`** reads the output permission override. It parses `"0" + OutMode`
  in base 8 with a 32-bit ceiling (module `Octal`, strconv's `ParseUint`;
  module `Configuration`, `GetMode`).
- **`Config.String`** writes the one-line-per-setting summary of a request (module
  `Configuration`). The string is built the way the Go code appends to `c`.
  It is then proved equal to the rendering of a structured list of lines:
  one optional line per setting, in a fixed order.
- **`parseTemplateArgs` / `parseTemplateArg`** resolve `[alias=]path` arguments for
  auxiliary templates into a name → path map (module `Aliases`).
  - The filesystem is a map from path to `File` or `Dir(listing)`. A missing path is a
    failing `os.Stat`, and `Dir(None)` is a failing `ioutil.ReadDir`.
  - `filepath.Join` is a function parameter.
  - The map is a `TemplateAliases` object whose `entries` field the methods update in place.
  - The specification of that update is an ordered log of writes, `Apply`.
    The failing-first, later-wins policy is `Resolve`.
- **`runTemplate` / `runTemplates` / `RunTemplates`**, the fail-fast driver (module `Render`).
  - The package-level `Metrics` is a `Metrics` object held by a `Process`. The `Process`
    also records the observable steps of a run as a trace of events: data setup,
    hook registration, alias resolution, gathering, compile, execute, close, cleanup.
  - Each gathered template carries its compile and execute outcome. It writes to a `Target`
    object: whether it is an `io.Closer`, whether it is `os.Stdout`, and a `closed` counter.
  - Deferred calls are written out on every exit path: the `Close` at line 113,
    `TotalRenderDuration` at line 206 and `runCleanupHooks` at line 181.

Each imperative method is proved against specification functions of the old state:
`Apply`/`Resolve` for the alias map, and `AfterRender`, `RenderEvents`, `RenderCloses`,
`RunMetrics`, `RunEvents` and `RunCloses` for the driver. The lemmas then state what the
code promises about those functions.

Three consequences of following the code exactly:

- A `left_delim` / `right_delim` line is printed whenever the delimiter is not `{{` / `}}`.
  An empty delimiter therefore still gets a line.
- `TotalRenderDuration` is recorded only when gathering succeeded, because the deferred
  assignment is registered after `gatherTemplates` (lines 198-206).
- `parseTemplateArgs` stops at the first failing argument. It returns that error
  together with the map built by the earlier arguments (lines 134-138).

## Model

| member | source | states |
|---|---|---|
| Octal.ParseUint32 | gomplate.go:39 | `ParseUint(s, 8, 32)` equals its specification. The empty string is a syntax error. A run of leading octal digits worth more than 2^32-1 is a range error. Otherwise any non-octal character is a syntax error. Otherwise the result is the base-8 value. |
| Octal.ScanMatchesSpec | gomplate.go:39 | The left-to-right digit scan, started with the value of the digits read so far, agrees with that specification. A syntax or range error at the first offending character comes out as the specification says. |
| Octal.LeadingZero | gomplate.go:39 | Prepending `"0"` changes neither whether the string is all octal digits, nor its value, nor whether it overflows. |
| Octal.OverflowsIffTooLarge | gomplate.go:39 | For a string of octal digits, some prefix exceeds 2^32-1 exactly when the whole value does. |
| Configuration.GetMode | gomplate.go:37-45 | An empty `OutMode` gives `(0, false, nil)`. No error exactly when `OutMode` is octal digits worth at most 2^32-1; then the mode is its base-8 value and the override flag is `OutMode != ""`. On error the mode is 0 and the flag false. The error is a range error exactly when a prefix overflows. |
| Text.SplitAtEquals | gomplate.go:144 | `SplitN(s, "=", 2)` gives one part, `s` itself, exactly when `s` has no `=`. Otherwise it gives two parts that rejoin with `=` to `s`, the first holding no `=`. |
| Text.SplitAtFirstEquals | gomplate.go:144-150 | `a + "=" + b` with `'=' !in a` splits into exactly `[a, b]`: the split is at the first `=` only. |
| Configuration.String | gomplate.go:48-91 | Has no contract of its own, as its body is the Go code's appends to `c`. Its meaning is stated by `Configuration.StringIsRenderedLines` and the summary lemmas below. |
| Configuration.StringIsRenderedLines | gomplate.go:48-91 | The string `String` builds equals the structured summary rendered line by line, each line as its label followed by its value. |
| Configuration.SummaryLinePresence | gomplate.go:49-88 | The summary has a line for a setting exactly when that setting is shown. Input and output are always shown. Exclude, chmod, datasources, datasourceheaders and templates are shown when non-empty. The delimiters are shown when they differ from `{{` / `}}`. |
| Configuration.SummaryLineValues | gomplate.go:49-88 | Every line of the summary carries its own setting's text. For input: `<arg>`, else `InputDir`, else the joined `InputFiles`. For output: `OutputDir` for a directory input not sent to `"."`, else the joined `OutputFiles`. |
| Configuration.SummaryLinesOrdered | gomplate.go:48-91 | The keys of the summary appear in strictly increasing position of the code's fixed order, so no key is repeated. |
| Configuration.SummaryInputAndOutput | gomplate.go:49-67 | The summary starts with `"input: "` plus the input text. Somewhere it contains `"\noutput: "` plus the output text. |
| Aliases.TemplateAliases.constructor | gomplate.go:133 | A new alias map is empty. |
| Aliases.ParseTemplateArg | gomplate.go:143-176 | On a failing stat or directory listing it returns that error and leaves the map unchanged. Otherwise it returns no error, and the map is the old map after the argument's writes (`ArgWrites`) in order. |
| Aliases.ParseTemplateArgs | gomplate.go:132-141 | A fresh map holds exactly the writes of the arguments processed under the fail-fast policy (`Resolve`). The error returned is the first failing argument's. |
| Aliases.AliasedFile | gomplate.go:144-173 | A file argument `alias=path` writes just `alias → path`, so the map becomes `m[alias := path]`. |
| Aliases.PlainFile | gomplate.go:144-173 | A file argument without `=` writes just `path → path`. |
| Aliases.UnreadablePath | gomplate.go:144-158 | For an argument `alias=path`, a path that cannot be stat'ed, or a directory that cannot be listed, makes the argument fail with that error. |
| Aliases.UnreadablePlainPath | gomplate.go:144-158 | The same holds for a plain path without `=`: it fails with the stat or listing error. |
| Aliases.DirectoryArgument | gomplate.go:144-162 | A readable directory argument `alias=path` writes its listing (`DirWrites`). Its prefix is the alias, or the path when the alias is empty. |
| Aliases.PlainDirectoryArgument | gomplate.go:144-162 | A readable directory argument without `=` writes its listing with its own path as prefix. |
| Aliases.DirWritesSnoc | gomplate.go:163-167 | A listing's last entry adds the write `join(prefix, name) → join(path, name)` when it is a file. A sub-directory adds no write. |
| Aliases.DirectoryKeys | gomplate.go:159-167 | A listing's writes add exactly the keys `join(prefix, name)` of its entries that are not directories. Sub-directories add no key. Through `Aliases.DirectoryArgument` this is what a directory argument adds, with the alias or else the path as prefix. |
| Aliases.DirectoryValue | gomplate.go:159-167 | A file entry `f` maps `join(prefix, f)` to `join(path, f)`, provided no other entry joins to the same name. |
| Aliases.DirectoryKeepsOthers | gomplate.go:163-167 | A name that the listing does not define keeps its presence and its value. |
| Aliases.ResolveSucceeds | gomplate.go:132-141 | Resolution returns no error exactly when every argument succeeds on its own. |
| Aliases.FirstFailingArgument | gomplate.go:134-138 | When argument `k` is the first to fail, resolution returns its error together with the writes of arguments `0..k-1` only. |
| Aliases.ResolveAppend | gomplate.go:134-139 | After arguments `a` succeed, resolving `a + b` is resolving `b` on top of `a`'s writes. |
| Aliases.LaterArgumentsWin | gomplate.go:134-139 | For a name that the later arguments `b` define, the earlier arguments `a` make no difference to the final value: the later registration overwrites. |
| Render.Metrics.constructor | gomplate.go:180 | `newMetrics` gives zero counters and no recorded durations. |
| Render.Gomplate.constructor | gomplate.go:123-130 | `newGomplate` keeps the delimiters and the alias map it is given. |
| Render.Gomplate.RunTemplate | gomplate.go:102-118 | Returns the compile error without executing. Otherwise it executes and returns the execute error, if any. The target is closed exactly once after execution when it is a closer other than stdout, and never otherwise. The metrics are untouched. |
| Render.Gomplate.RenderOne | gomplate.go:208-215 | One round of the loop records the template's duration key, then counts one error or one processed template. |
| Render.Gomplate.RenderEach | gomplate.go:207-216 | The loop runs the templates up to and including the first failure and returns that failure's error. The metrics become `EachMetrics` of the old ones. The trace grows by those templates' steps. Each target is closed as often as the started templates schedule a close of it. |
| Render.Gomplate.RunTemplates | gomplate.go:196-218 | On a gather failure it counts one error and records the gather duration. Otherwise it also records `TemplatesGathered = n`, the loop's effects and `TotalRenderDuration`. It returns the loop's error. |
| Render.RunTemplates | gomplate.go:179-194 | The metrics are reset to a fresh object. The steps are data setup; then, when setup succeeds, hook registration and alias resolution; then, when resolution succeeds, rendering; always the cleanup last. The error, metrics and closes are those of the path taken. |
| Render.GatherFailure | gomplate.go:198-203 | A gather failure adds one error and runs no template. |
| Render.FirstFailureCounters | gomplate.go:204-214 | If template `k` is the first to fail: gathered is `n`, processed goes up by `k` and errors by 1. The duration keys added are the names of templates `0..k`, only they are started, and the run returns template `k`'s error. |
| Render.AllSucceedCounters | gomplate.go:204-217 | When every template succeeds, processed goes up by `n`, errors are unchanged, every name has a duration key and no error is returned. |
| Render.NamesOfPrefix | gomplate.go:210 | The duration keys of the first `n` templates are exactly their names. |
| Render.RenderSucceedsIff | gomplate.go:207-217 | Rendering returns no error exactly when every gathered template compiles and executes. |
| Render.MetricsBalance | gomplate.go:204-216 | From fresh metrics, processed plus errors equals the number of templates started, which is at most the number gathered. |
| Render.CompileFailureStops | gomplate.go:104-107 | A template that does not compile is neither executed nor closed, and it returns its compile error. |
| Render.StdoutNeverClosed | gomplate.go:109-115 | `os.Stdout` is never closed. |
| Render.ClosedOnce | gomplate.go:109-117 | With distinct targets, a started template's target is closed exactly once if it compiled into a closer other than stdout, and not at all otherwise, whether or not execution succeeded. |
| Render.CleanupRunsLast | gomplate.go:181 | The cleanup hooks run exactly once, as the last step, on every path. |
| Render.SetupOrder | gomplate.go:180-191 | Data setup comes first. The cleanup hook is registered exactly when setup succeeds, directly before alias resolution. Templates are gathered exactly when both succeed. |

## Left out

- `text/template` is left out: parsing, `toGoTemplate`, `ExecuteTemplate` and the function map. Each gathered template carries whether it compiles and whether it executes. The cause of a compile or execute error is reduced to the template's name.
- Data sources are left out: `data.NewData`, `Funcs(d)` and `d.Cleanup`. Setup is a boolean input, and a registered hook is one step in the trace.
- `gatherTemplates`, `addCleanupHook`, `runCleanupHooks`, `tplate` and `context` are defined in other files, so they are not modelled. Gathering is an input: an error, or templates in order. The hooks are steps in the trace.
- `newMetrics` is also defined elsewhere. It is assumed to return zero counters and an empty duration map.
- Timing is left out. For `GatherDuration`, `RenderDuration` and `TotalRenderDuration` the model records only whether each was set, and under which key. The `time.Now` values are not modelled.
- `os.Stat`, `ioutil.ReadDir` and `filepath.Join` are not modelled as I/O.
  - The filesystem is a map given as a parameter.
  - `join` is an uninterpreted function, so its path cleaning is not modelled.
  - The order of a listing is whatever the map holds; `ReadDir`'s sort by name is not modelled.
  - An `os.Stat` error is reduced to the path it failed on.
- `os.FileMode` is returned as its numeric value. The mode bits have no further meaning here.
- `Errors`, `TemplatesGathered` and `TemplatesProcessed` are unbounded naturals. Go's `int` overflow is not modelled.
- Render.ClosedOnce: assumes the templates write to distinct targets. With a shared target, the count is the number of started templates that schedule a close of it, which is what `RenderEach` states.
- Aliases.DirectoryValue: assumes that no other entry joins to the same name. Without that, the last such entry wins, as `Aliases.ApplyLastWins` states.
