/**
 * `GoCD::GreenBuild`: the completion time, materials and dependencies of
 * a green stage, copied from the stage and its owning pipeline run.
 * `GreenBuild.new` calls `completed_at` and `pipeline` on whatever it is
 * given, so its argument is modelled as the Ruby object it receives:
 * a stage (with the run it belongs to) or a bare `Time`, which has
 * neither method.
 */
module GreenBuilds {
  import opened Wrappers
  import opened GoApi
  import StageRuns

  datatype GreenBuild = GreenBuild(completedAt: Time, materials: seq<Material>, dependencies: seq<Dependency>)

  /** The object handed to `GreenBuild.new`. */
  datatype Receiver = StageObject(pipeline: Pipeline, stage: Stage) | TimeObject(time: Time)

  /** A Ruby `NoMethodError` for the method that was called. */
  datatype Error = NoMethodError(methodName: string)

  /** `GreenBuild.new(arg)`. */
  function New(arg: Receiver): (r: Result<GreenBuild, Error>)
    ensures r.Success? <==> arg.StageObject?
    ensures arg.StageObject? ==> r.value.completedAt == arg.stage.completedAt
    ensures arg.StageObject? ==> r.value.materials == arg.pipeline.materials
    ensures arg.StageObject? ==> r.value.dependencies == arg.pipeline.dependencies
    ensures arg.TimeObject? ==> r == Failure(NoMethodError("completed_at"))
  {
    match arg
    case StageObject(pipeline, stage) =>
      Success(GreenBuild(stage.completedAt, pipeline.materials, pipeline.dependencies))
    case TimeObject(_) =>
      Failure(NoMethodError("completed_at"))
  }

  /** A green build agrees with the stage run of the same stage on every field the two share. */
  lemma AgreesWithStageRun(pipeline: Pipeline, stage: Stage)
    ensures New(StageObject(pipeline, stage)).Success?
    ensures New(StageObject(pipeline, stage)).value.completedAt == StageRuns.New(pipeline, stage).completedAt
    ensures New(StageObject(pipeline, stage)).value.materials == StageRuns.New(pipeline, stage).materials
    ensures New(StageObject(pipeline, stage)).value.dependencies == StageRuns.New(pipeline, stage).dependencies
  {
  }
}
