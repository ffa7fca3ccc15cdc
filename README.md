# Last green Go CD build: a Dafny model

This project models the poller of `last_green_go_pipeline`: `GoCD::LastGreenBuildFetcher`
asks the Go CD feed (`GoApiClient.runs`) for the runs of one pipeline, stores the feed's
new cursor (`latest_atom_entry_id`) in a per-pipeline cache, scans the runs for the newest
one whose target stage passed, remembers that stage's completion time as the
`last_green_build`, and answers whatever is remembered under that key (so a poll that finds
nothing new still answers the last known green build). It also models the two value records
`GoCD::StageRun` (with its `instance` path `pipeline/counter/stage/counter`) and
`GoCD::GreenBuild`.

Modules, one per source file or collaborator:

- `GoApi` (`go_api.dfy`): the feed's stages, pipeline runs and answer, and the Ruby values
  the options hash and the cache hold: nil, String, Time, and any other object a caller
  passes through to the feed reader, known only by an identity.
- `Text` (`text.dfy`): `Integer#to_s` and `Array#join("/")`, with the inverses used to show
  that an instance string determines its fields.
- `StageRuns` (`stage_runs.dfy`): `lib/go_cd/stage_run.rb`.
- `GreenBuilds` (`green_builds.dfy`): `lib/go_cd/green_build.rb`.
- `PipelineCache` (`pipeline_cache.dfy`): the private `remember` / `recall` of the fetcher as
  functions on the two-level map `pipeline -> (key -> value)`.
- `LastGreenBuild` (`last_green_build.dfy`): the class `LastGreenBuildFetcher` (constructor,
  `Remember`, `Fetch` with its reverse-scan loop) and the functions that specify it.

The feed reader is a parameter: `Fetch(runs)` receives `GoApiClient.runs` as a function from
options to a `Feed` (runs newest first, plus a cursor) and is proved to leave the cache equal
to `AfterFetch(old cache, pipeline, stage, runs(options))`, whose properties are proved once.

Behaviour of the code that is easy to misread:

- The cursor sent to the feed is recalled once, in the constructor
  (`lib/go_cd/last_green_build_fetcher.rb:16`); a second `Fetch` on the same object sends the
  same cursor again (`Fetch` keeps `options` unchanged), rather than the one stored by the
  first `Fetch`.
- The scan does not stop at the first green run: it walks `pipelines.reverse` and every
  green run overwrites the previous one, so the newest one (lowest index) survives. The
  result is the same as a newest-first search that stops.
- There is no dependency or material filter in the code.
- What is remembered as the last green build: line 36 of
  `lib/go_cd/last_green_build_fetcher.rb` hands `stage.completed_at` to `GreenBuild.new`,
  which raises NoMethodError (see "## Findings"). The model remembers the passing stage's
  completion time instead, which is what the tests compare the answer of `fetch` with
  (`spec/last_green_build_fetcher_spec.rb:47`, `test/last_green_build_fetcher_test.rb:30`).

## Model

| member | source | states |
|---|---|---|
| `LastGreenBuild.LastGreenBuildFetcher.constructor` | lib/go_cd/last_green_build_fetcher.rb:11-20 | the pipeline and stage are read from the options, the stage name is removed from them, and the cursor recalled from the store is merged in (`QueryOptions`) |
| `LastGreenBuild.QueryOptions` | lib/go_cd/last_green_build_fetcher.rb:13-16 | the options sent to the feed hold no `stage_name`, hold `latest_atom_entry_id` equal to the cursor recalled for the pipeline (nil if none), and otherwise are the caller's options |
| `LastGreenBuild.LastGreenBuildFetcher.Remember` | lib/go_cd/last_green_build_fetcher.rb:45-53 | the cache becomes `PipelineCache.Remember` of the old cache |
| `PipelineCache.Remember` | lib/go_cd/last_green_build_fetcher.rb:45-53 | a merge-write: only `key` of this pipeline's entry changes, other keys and other pipelines are untouched, and a missing entry becomes exactly `{key => value}` |
| `PipelineCache.Recall` | lib/go_cd/last_green_build_fetcher.rb:55-59 | nil when the pipeline has no entry or the entry lacks the key, otherwise the stored value |
| `PipelineCache.RecallRemember` | lib/go_cd/last_green_build_fetcher.rb:45-59 | after a `remember`, `recall` gives the new value for that pipeline and key and the old answer for every other pair |
| `PipelineCache.RememberOverwrites` | lib/go_cd/last_green_build_fetcher.rb:45-53 | remembering the same key twice equals remembering only the second value |
| `LastGreenBuild.FindStage` | lib/go_cd/last_green_build_fetcher.rb:34 | `find` yields the index of the first stage whose name equals the target, or nothing when no stage has that name |
| `LastGreenBuild.Named` | lib/go_cd/last_green_build_fetcher.rb:34 | `stage.name == @stage`: a nil (or non-String) target name matches no stage; a String matches exactly the stages of that name |
| `LastGreenBuild.PassingStage` | lib/go_cd/last_green_build_fetcher.rb:34-35 | a run counts as green exactly when its first stage of the target name has result 'Passed'; no such stage, or a first one that did not pass, gives nothing |
| `LastGreenBuild.NewestGreen` | lib/go_cd/last_green_build_fetcher.rb:33-38 | the lowest feed index of a green run, or nothing when no run is green |
| `LastGreenBuild.GreenTimeStep` | lib/go_cd/last_green_build_fetcher.rb:33-38 | scanning one more (newer) run in `pipelines.reverse` order: a green run replaces what the older runs left, a non-green one leaves it |
| `LastGreenBuild.AfterFetch` | lib/go_cd/last_green_build_fetcher.rb:29-38 | after a poll the pipeline's cursor is the feed's, whether or not a green run was found; the last green build is the completion time of the lowest-index green run, or unchanged when there is none; other keys and other pipelines are untouched |
| `LastGreenBuild.FetchResult` | lib/go_cd/last_green_build_fetcher.rb:33-40 | the answer of `fetch` is the completion time of the newest green run, or the previously remembered value when the feed holds none |
| `LastGreenBuild.LastGreenBuildFetcher.Fetch` | lib/go_cd/last_green_build_fetcher.rb:22-41 | queries the feed with the fetcher's options, leaves the cache equal to `AfterFetch` of the old one, and returns `recall(:last_green_build)` of the new cache; options, pipeline and stage are unchanged |
| `LastGreenBuild.RepeatedFetchKeepsResult` | test/last_green_build_fetcher_test.rb:63-74 | a poll whose feed holds no green run answers what the previous poll answered |
| `LastGreenBuild.FirstFetchWithoutGreenIsNil` | test/last_green_build_fetcher_test.rb:34-43 | for a pipeline with no cache entry, a poll without a green run answers nil |
| `LastGreenBuild.FindsMostRecentPassingStage` | spec/last_green_build_fetcher_spec.rb:40-48 | with a green run listed before an older red one, the green 'acceptance' stage's completion time is answered |
| `LastGreenBuild.GreenRecordAsWritten` | lib/go_cd/last_green_build_fetcher.rb:36 | `GreenBuild.new(stage.completed_at)` always fails |
| `LastGreenBuild.AsWrittenGreenWriteRaises` | lib/go_cd/last_green_build_fetcher.rb:36 | for any run of the feed with a passing target stage, the record the code builds for it raises NoMethodError for `completed_at` |
| `LastGreenBuild.WalkAsWritten` | lib/go_cd/last_green_build_fetcher.rb:33-38 | the `pipelines.reverse` walk as written raises NoMethodError exactly when some run of the feed has a passing target stage (at the highest-index one, the first it meets) |
| `LastGreenBuild.FetchAsWritten` | lib/go_cd/last_green_build_fetcher.rb:29-38 | `fetch` as written stores the feed's cursor, changes no other key of the pipeline, and raises NoMethodError exactly when the feed holds a green run |
| `LastGreenBuild.AsWrittenLosesGreenBuild` | lib/go_cd/last_green_build_fetcher.rb:29-40 | when the feed holds a green run, `fetch` as written raises and keeps the old last green build, while the intended `AfterFetch` remembers the newest green run's completion time |
| `StageRuns.New` | lib/go_cd/stage_run.rb:7-15 | completion time and result come from the stage; materials, dependencies, name and counter from its pipeline run; the instance is the four identity fields joined by '/', and reads back to them when the names hold no '/' |
| `StageRuns.InstanceRoundTrip` | lib/go_cd/stage_run.rb:14 | the four fields written with `to_s` and joined by '/' parse back into pipeline name, pipeline counter, stage name and stage counter, when the names hold no '/' |
| `StageRuns.Instance` | lib/go_cd/stage_run.rb:14 | the `map(&:to_s).join("/")` of the four identity fields; its contract is that the string parses back to those fields when the names hold no '/' (proved in `InstanceRoundTrip`; `InstanceExample` gives a concrete value) |
| `StageRuns.InstanceDeterminedByIdentity` | lib/go_cd/stage_run.rb:14 | two stage runs with the same four identity fields have the same instance |
| `StageRuns.InstanceIdentifies` | lib/go_cd/stage_run.rb:14 | two stage runs with slash-free names and the same instance agree on all four identity fields |
| `StageRuns.InstanceExample` | lib/go_cd/stage_run.rb:14 | pipeline 'osito', counter 3, stage 'acceptance', stage counter 1 give "osito/3/acceptance/1" |
| `Text.ParseIntToString` | lib/go_cd/stage_run.rb:14 | `to_s` of a counter loses nothing: it parses back to the same integer, negatives included |
| `Text.SplitJoin` | lib/go_cd/stage_run.rb:14 | `join("/")` of parts without '/' splits back into the same parts |
| `Text.IntToString` | lib/go_cd/stage_run.rb:14 | `Integer#to_s`: a non-empty string of digits and '-' (so never holding '/'); it parses back to the integer (`ParseIntToString`) |
| `Text.Join` | lib/go_cd/stage_run.rb:14 | `join("/")`: the empty array gives "", one part gives itself, more parts give the first part followed by the separator; `SplitJoin` proves the rest |
| `GreenBuilds.New` | lib/go_cd/green_build.rb:7-11 | given a stage, the record copies its completion time and its pipeline run's materials and dependencies; given a Time, it raises NoMethodError for `completed_at` |
| `GreenBuilds.AgreesWithStageRun` | lib/go_cd/green_build.rb:8-10 | a green build and the stage run of the same stage agree on completion time, materials and dependencies |

## Findings

| source | as written | input that shows it | evidently intended | confidence | as-written member | corrected member |
|---|---|---|---|---|---|---|
| lib/go_cd/last_green_build_fetcher.rb:36 | `GreenBuild.new(stage.completed_at)` passes a Time to a constructor that calls `completed_at` and `pipeline` on its argument; the new cursor is already stored (line 30) when the raise comes, so a fetcher constructed after the failed poll sends the new cursor, while the same fetcher sends its old cursor and raises again | a feed with one run whose 'acceptance' stage has result 'Passed', fetched with stage name 'acceptance' | remember the passing stage's completion time, which is what the tests compare the answer of `fetch` with (spec/last_green_build_fetcher_spec.rb:47) | high; not executed | `LastGreenBuild.AsWrittenLosesGreenBuild` | `LastGreenBuild.AfterFetch` |

## Left out

- HTTP retrieval and Atom parsing inside `GoApiClient.runs`: a foreign library; its answer is the `Feed` a caller passes in through `runs`.
- PStore persistence, the cache file path and transaction locking: the cache is an in-memory map and each `remember` one atomic update; several fetchers sharing one file are not modelled.
- `Benchmark.realtime` timing: floating point, used only for a log line.
- `puts` logging and the `ENV['QUIET']` checks: output only, no effect on state.
- Time parsing and comparison: a `Time` is an opaque value that is only copied.
- Aliasing of the options hash: `@options` is the caller's own hash, so `Hash#delete` (`lib/go_cd/last_green_build_fetcher.rb:14`) removes `:stage_name` from it and `merge!` (line 16) writes `:latest_atom_entry_id` into it, and any change the caller makes to that hash after construction also changes every later `GoApiClient.runs` query; the model copies the options into the fetcher, so it captures neither effect.
- Ruby's duck typing beyond the one case above: a stage without a `pipeline` (as the test doubles have) would also make `GreenBuild.new` or `StageRun.new` raise; the model's stages always come with their pipeline run.
- The dependency and material filter and any backtracking search: the code has none.
