/**
 * The values the fetcher receives from the Go CD feed reader (`GoApiClient.runs`)
 * and the Ruby values it keeps in its options hash and its cache.
 * The feed reader itself (HTTP, Atom parsing) is not part of this model: its
 * answer is an input.
 */
module GoApi {

  /** A completion time as the feed reports it (a Ruby `Time`); never inspected. */
  datatype Time = Time(stamp: int)

  /** A source repository a pipeline run was built from. */
  datatype Material = Material(repositoryUrl: string, revision: string)

  /** An upstream pipeline run a pipeline run depended on. */
  datatype Dependency = Dependency(pipelineName: string, stageName: string, identifier: string)

  /** One stage of a pipeline run. */
  datatype Stage = Stage(name: string, counter: int, result: string, completedAt: Time)

  /** One pipeline run; `stages` are in the order the feed lists them. */
  datatype Pipeline = Pipeline(
    name: string,
    counter: int,
    materials: seq<Material>,
    dependencies: seq<Dependency>,
    stages: seq<Stage>)

  /** The stage result that marks a green build. */
  const PASSED: string := "Passed"

  /**
   * A Ruby value stored in the options hash or the cache: nil, a String, a
   * Time, or any other object a caller passes through to the feed reader
   * (such as a page limit), known here only by an identity.
   */
  datatype Value = Nil | Str(s: string) | At(time: Time) | Object(id: int)

  /** Ruby symbols (hash keys) are written by their name. */
  type Symbol = string

  const PIPELINE_NAME: Symbol := "pipeline_name"
  const STAGE_NAME: Symbol := "stage_name"
  const LATEST_ATOM_ENTRY_ID: Symbol := "latest_atom_entry_id"
  const LAST_GREEN_BUILD: Symbol := "last_green_build"

  /** A Ruby hash from symbols to values, such as the fetcher's options. */
  type Options = map<Symbol, Value>

  /** `hash[key]`: nil when the key is absent. */
  function Lookup(h: map<Symbol, Value>, key: Symbol): (v: Value)
    ensures key !in h ==> v == Nil
    ensures key in h ==> v == h[key]
  {
    if key in h then h[key] else Nil
  }

  /**
   * What `GoApiClient.runs(options)` answers: the pipeline runs, newest first,
   * and the feed's new cursor.
   */
  datatype Feed = Feed(pipelines: seq<Pipeline>, latestAtomEntryId: Value)
}
