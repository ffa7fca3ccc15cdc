/**
 * `GoCD::LastGreenBuildFetcher`: polls the Go CD feed of one pipeline and
 * remembers, per pipeline, the feed's latest cursor and the completion time
 * of the newest run whose target stage passed.
 */
module LastGreenBuild {
  import opened Wrappers
  import opened GoApi
  import PipelineCache
  import GreenBuilds

  /** `stage.name == @stage`: a nil target stage name matches no stage. */
  predicate Named(stage: Stage, name: Value)
    ensures !name.Str? ==> !Named(stage, name)
    ensures name.Str? ==> (Named(stage, name) <==> name.s == stage.name)
  {
    name == Str(stage.name)
  }

  /** `k` is the index of the first stage called `name`. */
  predicate FirstNamedAt(stages: seq<Stage>, name: Value, k: int) {
    0 <= k < |stages| && Named(stages[k], name) && forall j :: 0 <= j < k ==> !Named(stages[j], name)
  }

  /** `stages.find { |stage| stage.name == @stage }`, as an index. */
  function FindStage(stages: seq<Stage>, name: Value): (r: Option<nat>)
    ensures r.Some? ==> FirstNamedAt(stages, name, r.value)
    ensures r.None? ==> forall k :: 0 <= k < |stages| ==> !Named(stages[k], name)
  {
    if stages == [] then None
    else if Named(stages[0], name) then Some(0)
    else match FindStage(stages[1..], name)
      case Some(k) => Some(k + 1)
      case None => None
  }

  /**
   * The target stage of `pipeline` when it counts as green: the first stage
   * called `name`, provided its result is 'Passed'.
   */
  function PassingStage(pipeline: Pipeline, name: Value): (r: Option<Stage>)
    ensures forall k :: FirstNamedAt(pipeline.stages, name, k) ==>
              r == if pipeline.stages[k].result == PASSED then Some(pipeline.stages[k]) else None
    ensures (forall k :: 0 <= k < |pipeline.stages| ==> !Named(pipeline.stages[k], name)) ==> r == None
  {
    match FindStage(pipeline.stages, name)
    case Some(k) => if pipeline.stages[k].result == PASSED then Some(pipeline.stages[k]) else None
    case None => None
  }

  /** `j` is the lowest index of a pipeline run with a passing target stage. */
  predicate NewestGreenAt(pipelines: seq<Pipeline>, name: Value, j: int) {
    && 0 <= j < |pipelines|
    && PassingStage(pipelines[j], name).Some?
    && forall k :: 0 <= k < j ==> PassingStage(pipelines[k], name).None?
  }

  /**
   * The run whose green stage the scan keeps: the feed lists runs newest
   * first, so the lowest index is the newest run.
   */
  function NewestGreen(pipelines: seq<Pipeline>, name: Value): (r: Option<nat>)
    ensures r.Some? ==> NewestGreenAt(pipelines, name, r.value)
    ensures r.None? ==> forall k :: 0 <= k < |pipelines| ==> PassingStage(pipelines[k], name).None?
  {
    if pipelines == [] then None
    else if PassingStage(pipelines[0], name).Some? then Some(0)
    else match NewestGreen(pipelines[1..], name)
      case Some(j) => Some(j + 1)
      case None => None
  }

  /** The completion time the scan leaves remembered, if any run is green. */
  function GreenTime(pipelines: seq<Pipeline>, name: Value): Option<Time> {
    match NewestGreen(pipelines, name)
    case Some(j) => Some(PassingStage(pipelines[j], name).value.completedAt)
    case None => None
  }

  /** Remembers `t` as the last green build, when there is one. */
  function WithGreen(cache: PipelineCache.Cache, pipeline: Value, t: Option<Time>): PipelineCache.Cache {
    match t
    case Some(time) => PipelineCache.Remember(cache, pipeline, LAST_GREEN_BUILD, At(time))
    case None => cache
  }

  /** The options the constructor leaves for `GoApiClient.runs`. */
  function QueryOptions(opts: Options, store: PipelineCache.Cache): (q: Options)
    ensures STAGE_NAME !in q
    ensures LATEST_ATOM_ENTRY_ID in q
    ensures q[LATEST_ATOM_ENTRY_ID] == PipelineCache.Recall(store, Lookup(opts, PIPELINE_NAME), LATEST_ATOM_ENTRY_ID)
    ensures forall k :: k != STAGE_NAME && k != LATEST_ATOM_ENTRY_ID ==> (k in q <==> k in opts)
    ensures forall k :: k in q && k != LATEST_ATOM_ENTRY_ID ==> k in opts && q[k] == opts[k]
  {
    var cursor := PipelineCache.Recall(store, Lookup(opts, PIPELINE_NAME), LATEST_ATOM_ENTRY_ID);
    (opts - {STAGE_NAME})[LATEST_ATOM_ENTRY_ID := cursor]
  }

  /** The cache after one `fetch` that received `feed`. */
  function AfterFetch(cache: PipelineCache.Cache, pipeline: Value, name: Value, feed: Feed): (c: PipelineCache.Cache)
    ensures PipelineCache.Recall(c, pipeline, LATEST_ATOM_ENTRY_ID) == feed.latestAtomEntryId
    ensures forall j :: NewestGreenAt(feed.pipelines, name, j) ==>
              PipelineCache.Recall(c, pipeline, LAST_GREEN_BUILD)
                == At(PassingStage(feed.pipelines[j], name).value.completedAt)
    ensures (forall k :: 0 <= k < |feed.pipelines| ==> PassingStage(feed.pipelines[k], name).None?) ==>
              PipelineCache.Recall(c, pipeline, LAST_GREEN_BUILD) == PipelineCache.Recall(cache, pipeline, LAST_GREEN_BUILD)
    ensures forall k :: k != LATEST_ATOM_ENTRY_ID && k != LAST_GREEN_BUILD ==>
              PipelineCache.Recall(c, pipeline, k) == PipelineCache.Recall(cache, pipeline, k)
    ensures c.Keys == cache.Keys + {pipeline}
    ensures forall q :: q in cache && q != pipeline ==> c[q] == cache[q]
  {
    var withCursor := PipelineCache.Remember(cache, pipeline, LATEST_ATOM_ENTRY_ID, feed.latestAtomEntryId);
    WithGreen(withCursor, pipeline, GreenTime(feed.pipelines, name))
  }

  /** What `fetch` answers: the last green build recalled once the feed is processed. */
  function FetchResult(cache: PipelineCache.Cache, pipeline: Value, name: Value, feed: Feed): (v: Value)
    ensures forall j :: NewestGreenAt(feed.pipelines, name, j) ==>
              v == At(PassingStage(feed.pipelines[j], name).value.completedAt)
    ensures (forall k :: 0 <= k < |feed.pipelines| ==> PassingStage(feed.pipelines[k], name).None?) ==>
              v == PipelineCache.Recall(cache, pipeline, LAST_GREEN_BUILD)
  {
    PipelineCache.Recall(AfterFetch(cache, pipeline, name, feed), pipeline, LAST_GREEN_BUILD)
  }

  /** Scanning one more, newer run: when it is green, its stage replaces whatever older run was kept. */
  lemma GreenTimeStep(pipelines: seq<Pipeline>, name: Value, i: nat)
    requires 0 < i <= |pipelines|
    ensures GreenTime(pipelines[i - 1..], name)
         == match PassingStage(pipelines[i - 1], name)
            case Some(stage) => Some(stage.completedAt)
            case None => GreenTime(pipelines[i..], name)
  {
  }

  class LastGreenBuildFetcher {
    /** What is passed to `GoApiClient.runs`. */
    var options: Options
    /** The pipeline whose cache entry is used (nil when none was configured). */
    var pipeline: Value
    /** The name of the stage whose green runs are looked for. */
    var stage: Value
    /** The persisted cache, shared by all pipelines. */
    var cache: PipelineCache.Cache

    /** `LastGreenBuildFetcher.new(options)`, with `store` the cache as persisted at that moment. */
    constructor (opts: Options, store: PipelineCache.Cache)
      ensures pipeline == Lookup(opts, PIPELINE_NAME)
      ensures stage == Lookup(opts, STAGE_NAME)
      ensures cache == store
      ensures options == QueryOptions(opts, store)
    {
      options := opts;
      pipeline := Lookup(opts, PIPELINE_NAME);
      stage := Lookup(opts, STAGE_NAME);
      cache := store;
      new;
      options := options - {STAGE_NAME};
      options := options[LATEST_ATOM_ENTRY_ID := PipelineCache.Recall(cache, pipeline, LATEST_ATOM_ENTRY_ID)];
    }

    /** `remember(key, value)`. */
    method Remember(key: Symbol, value: Value)
      modifies this`cache
      ensures cache == PipelineCache.Remember(old(cache), pipeline, key, value)
    {
      if pipeline in cache {
        cache := cache[pipeline := cache[pipeline][key := value]];
      } else {
        cache := cache[pipeline := map[key := value]];
      }
    }

    /**
     * `fetch`, where `runs` is `GoApiClient.runs`: store the feed's cursor,
     * walk the runs from the last listed (oldest) to the first (newest),
     * remembering every passing target stage, and recall the survivor.
     */
    method Fetch(runs: Options -> Feed) returns (lastGreen: Value)
      modifies this`cache
      ensures options == old(options) && pipeline == old(pipeline) && stage == old(stage)
      ensures cache == AfterFetch(old(cache), pipeline, stage, runs(options))
      ensures lastGreen == PipelineCache.Recall(cache, pipeline, LAST_GREEN_BUILD)
      ensures lastGreen == FetchResult(old(cache), pipeline, stage, runs(options))
    {
      var feed := runs(options);
      var pipelines := feed.pipelines;
      Remember(LATEST_ATOM_ENTRY_ID, feed.latestAtomEntryId);
      ghost var withCursor := cache;
      var i := |pipelines|;
      while i > 0
        invariant 0 <= i <= |pipelines|
        invariant cache == WithGreen(withCursor, pipeline, GreenTime(pipelines[i..], stage))
      {
        GreenTimeStep(pipelines, stage, i);
        i := i - 1;
        var found := PassingStage(pipelines[i], stage);
        if found.Some? {
          var older := GreenTime(pipelines[i + 1..], stage);
          if older.Some? {
            PipelineCache.RememberOverwrites(withCursor, pipeline, LAST_GREEN_BUILD,
              At(older.value), At(found.value.completedAt));
          }
          Remember(LAST_GREEN_BUILD, At(found.value.completedAt));
        }
      }
      lastGreen := PipelineCache.Recall(cache, pipeline, LAST_GREEN_BUILD);
    }
  }

  /**
   * `GreenBuild.new(stage.completed_at)`, the value the Ruby `fetch` hands
   * to `remember` for a passing stage.
   */
  function GreenRecordAsWritten(stage: Stage): (r: Result<GreenBuilds.GreenBuild, GreenBuilds.Error>)
    ensures r.Failure?
  {
    GreenBuilds.New(GreenBuilds.TimeObject(stage.completedAt))
  }

  /**
   * As written, `fetch` cannot remember a green build: building the record
   * for any passing target stage raises NoMethodError.
   */
  lemma AsWrittenGreenWriteRaises(feed: Feed, name: Value, j: nat)
    requires j < |feed.pipelines| && PassingStage(feed.pipelines[j], name).Some?
    ensures GreenRecordAsWritten(PassingStage(feed.pipelines[j], name).value)
         == Failure(GreenBuilds.NoMethodError("completed_at"))
  {
  }

  /**
   * The walk over `pipelines.reverse` as written: the first green run it
   * meets, the one with the highest index, raises and ends the walk.
   */
  function WalkAsWritten(pipelines: seq<Pipeline>, name: Value): (raised: Option<GreenBuilds.Error>)
    ensures raised.None? <==> forall k :: 0 <= k < |pipelines| ==> PassingStage(pipelines[k], name).None?
    ensures raised.Some? ==> raised.value == GreenBuilds.NoMethodError("completed_at")
  {
    if pipelines == [] then None
    else match PassingStage(pipelines[|pipelines| - 1], name)
      case Some(stage) => Some(GreenRecordAsWritten(stage).error)
      case None => WalkAsWritten(pipelines[..|pipelines| - 1], name)
  }

  /** What `fetch` as written leaves in the cache, and the error it raises, if any. */
  datatype AsWrittenOutcome = AsWrittenOutcome(cache: PipelineCache.Cache, raised: Option<GreenBuilds.Error>)

  /**
   * `fetch` as written: the cursor is stored first (in its own transaction),
   * then the walk raises at the first green run it meets, so nothing else
   * is written.
   */
  function FetchAsWritten(cache: PipelineCache.Cache, pipeline: Value, name: Value, feed: Feed): (o: AsWrittenOutcome)
    ensures PipelineCache.Recall(o.cache, pipeline, LATEST_ATOM_ENTRY_ID) == feed.latestAtomEntryId
    ensures forall k :: k != LATEST_ATOM_ENTRY_ID ==>
              PipelineCache.Recall(o.cache, pipeline, k) == PipelineCache.Recall(cache, pipeline, k)
    ensures o.raised.None? <==> forall k :: 0 <= k < |feed.pipelines| ==> PassingStage(feed.pipelines[k], name).None?
    ensures o.raised.Some? ==> o.raised.value == GreenBuilds.NoMethodError("completed_at")
  {
    AsWrittenOutcome(
      PipelineCache.Remember(cache, pipeline, LATEST_ATOM_ENTRY_ID, feed.latestAtomEntryId),
      WalkAsWritten(feed.pipelines, name))
  }

  /**
   * Whenever the feed holds a green run, `fetch` as written raises and keeps
   * the old last green build, where the intended `fetch` remembers the
   * newest green run's completion time.
   */
  lemma AsWrittenLosesGreenBuild(cache: PipelineCache.Cache, pipeline: Value, name: Value, feed: Feed, j: nat)
    requires NewestGreenAt(feed.pipelines, name, j)
    ensures FetchAsWritten(cache, pipeline, name, feed).raised == Some(GreenBuilds.NoMethodError("completed_at"))
    ensures PipelineCache.Recall(FetchAsWritten(cache, pipeline, name, feed).cache, pipeline, LAST_GREEN_BUILD)
         == PipelineCache.Recall(cache, pipeline, LAST_GREEN_BUILD)
    ensures PipelineCache.Recall(AfterFetch(cache, pipeline, name, feed), pipeline, LAST_GREEN_BUILD)
         == At(PassingStage(feed.pipelines[j], name).value.completedAt)
  {
  }

  /** A feed without a passing target stage leaves the answer of the previous poll in place. */
  lemma RepeatedFetchKeepsResult(cache: PipelineCache.Cache, pipeline: Value, name: Value, first: Feed, second: Feed)
    requires forall k :: 0 <= k < |second.pipelines| ==> PassingStage(second.pipelines[k], name).None?
    ensures FetchResult(AfterFetch(cache, pipeline, name, first), pipeline, name, second)
         == FetchResult(cache, pipeline, name, first)
  {
  }

  /** On a pipeline never seen before, a poll without a passing target stage answers nil. */
  lemma FirstFetchWithoutGreenIsNil(cache: PipelineCache.Cache, pipeline: Value, name: Value, feed: Feed)
    requires pipeline !in cache
    requires forall k :: 0 <= k < |feed.pipelines| ==> PassingStage(feed.pipelines[k], name).None?
    ensures FetchResult(cache, pipeline, name, feed) == Nil
  {
  }

  /**
   * The newest run is listed first; of a passing and an older failing
   * 'acceptance' stage, the passing one's completion time is answered.
   */
  lemma FindsMostRecentPassingStage(cache: PipelineCache.Cache, pipeline: Value, t1: Time, t2: Time, t3: Time, t4: Time)
    ensures
      var red := Pipeline("", 1, [], [], [Stage("unit", 1, "Passed", t1), Stage("acceptance", 1, "Failed", t2)]);
      var green := Pipeline("", 2, [], [], [Stage("unit", 1, "Passed", t3), Stage("acceptance", 1, "Passed", t4)]);
      FetchResult(cache, pipeline, Str("acceptance"), Feed([green, red], Str("ignore"))) == At(t4)
  {
    var red := Pipeline("", 1, [], [], [Stage("unit", 1, "Passed", t1), Stage("acceptance", 1, "Failed", t2)]);
    var green := Pipeline("", 2, [], [], [Stage("unit", 1, "Passed", t3), Stage("acceptance", 1, "Passed", t4)]);
    assert FirstNamedAt(green.stages, Str("acceptance"), 1);
    assert NewestGreenAt([green, red], Str("acceptance"), 0);
  }
}
