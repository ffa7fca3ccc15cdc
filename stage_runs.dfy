/**
 * `GoCD::StageRun`: an immutable snapshot of one stage execution, taken
 * from a stage and its owning pipeline run. Its `instance` is the path
 * `pipeline_name/pipeline_counter/stage_name/stage_counter`.
 * A datatype value cannot be changed after it is built, which is what the
 * Ruby class's read-only accessors promise.
 */
module StageRuns {
  import opened Wrappers
  import opened GoApi
  import opened Text

  datatype StageRun = StageRun(
    completedAt: Time,
    result: string,
    materials: seq<Material>,
    dependencies: seq<Dependency>,
    pipelineName: string,
    pipelineCounter: int,
    instance: string)

  /** The four fields an instance string is made of. */
  datatype Identity = Identity(pipelineName: string, pipelineCounter: int, stageName: string, stageCounter: int)

  /** The identity of `stage` run as part of `pipeline`. */
  function IdentityOf(pipeline: Pipeline, stage: Stage): Identity {
    Identity(pipeline.name, pipeline.counter, stage.name, stage.counter)
  }

  /** The four fields, each written with `to_s`. */
  function InstanceParts(id: Identity): (parts: seq<string>)
    ensures |parts| == 4
  {
    [id.pipelineName, IntToString(id.pipelineCounter), id.stageName, IntToString(id.stageCounter)]
  }

  /** `[pipeline_name, pipeline_counter, stage_name, stage_counter].map(&:to_s).join("/")`. */
  function Instance(id: Identity): (s: string)
    ensures SlashFree(id) ==> ParseInstance(s) == Some(id)
  {
    InstanceRoundTrip(id);
    Join(InstanceParts(id), '/')
  }

  /**
   * `StageRun.new(stage)`, where `pipeline` is the run `stage.pipeline` refers
   * to; the back-reference is taken as a value.
   */
  function New(pipeline: Pipeline, stage: Stage): (r: StageRun)
    ensures r.completedAt == stage.completedAt && r.result == stage.result
    ensures r.materials == pipeline.materials && r.dependencies == pipeline.dependencies
    ensures r.pipelineName == pipeline.name && r.pipelineCounter == pipeline.counter
    ensures r.instance == Instance(IdentityOf(pipeline, stage))
    ensures SlashFree(IdentityOf(pipeline, stage)) ==> ParseInstance(r.instance) == Some(IdentityOf(pipeline, stage))
  {
    var id := IdentityOf(pipeline, stage);
    StageRun(stage.completedAt, stage.result, pipeline.materials, pipeline.dependencies,
             pipeline.name, pipeline.counter, Instance(id))
  }

  /** Reads the four fields back out of an instance string; None when it is not of that shape. */
  function ParseInstance(s: string): Option<Identity> {
    var parts := Split(s, '/');
    if |parts| != 4 then None
    else
      match (ParseInt(parts[1]), ParseInt(parts[3]))
      case (Some(pipelineCounter), Some(stageCounter)) =>
        Some(Identity(parts[0], pipelineCounter, parts[2], stageCounter))
      case _ => None
  }

  /** Names are slash-free, so the instance string can be cut back into its fields. */
  predicate SlashFree(id: Identity) {
    '/' !in id.pipelineName && '/' !in id.stageName
  }

  /** The instance string determines the four fields it was made of, when the names hold no '/'. */
  lemma InstanceRoundTrip(id: Identity)
    ensures SlashFree(id) ==> ParseInstance(Join(InstanceParts(id), '/')) == Some(id)
  {
    if SlashFree(id) {
      var parts := InstanceParts(id);
      forall k | 0 <= k < 4 ensures '/' !in parts[k] {
        if k == 1 || k == 3 {
          var n := if k == 1 then id.pipelineCounter else id.stageCounter;
          assert parts[k] == IntToString(n);
          assert forall i :: 0 <= i < |parts[k]| ==> parts[k][i] != '/';
        }
      }
      SplitJoin(parts, '/');
      ParseIntToString(id.pipelineCounter);
      ParseIntToString(id.stageCounter);
    }
  }

  /** Two stage runs with the same four identity fields have the same instance. */
  lemma InstanceDeterminedByIdentity(p1: Pipeline, s1: Stage, p2: Pipeline, s2: Stage)
    requires IdentityOf(p1, s1) == IdentityOf(p2, s2)
    ensures New(p1, s1).instance == New(p2, s2).instance
  {
  }

  /** Conversely, equal instances mean equal identity fields, when the names hold no '/'. */
  lemma InstanceIdentifies(p1: Pipeline, s1: Stage, p2: Pipeline, s2: Stage)
    requires SlashFree(IdentityOf(p1, s1)) && SlashFree(IdentityOf(p2, s2))
    requires New(p1, s1).instance == New(p2, s2).instance
    ensures IdentityOf(p1, s1) == IdentityOf(p2, s2)
  {
  }

  /** The instance of stage run 1 of 'acceptance' in run 3 of pipeline 'osito'. */
  lemma InstanceExample(id: Identity)
    requires id == Identity("osito", 3, "acceptance", 1)
    ensures Instance(id) == "osito/3/acceptance/1"
  {
    assert InstanceParts(id) == ["osito", "3", "acceptance", "1"];
    assert Join(["osito", "3", "acceptance", "1"], '/') == "osito/3/acceptance/1";
  }
}
