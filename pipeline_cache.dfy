/**
 * The fetcher's cache as the private `remember` and `recall` see it: a map
 * from a pipeline name (nil when none was configured) to a hash of that
 * pipeline's remembered values. Each `remember` is one update of the map;
 * the file the map is persisted in is not part of this model.
 */
module PipelineCache {
  import opened GoApi

  type Entry = map<Symbol, Value>
  type Cache = map<Value, Entry>

  /** `recall(key)`: `@cache[@pipeline] && @cache[@pipeline][key]`. */
  function Recall(cache: Cache, pipeline: Value, key: Symbol): (v: Value)
    ensures pipeline !in cache ==> v == Nil
    ensures pipeline in cache && key !in cache[pipeline] ==> v == Nil
    ensures pipeline in cache && key in cache[pipeline] ==> v == cache[pipeline][key]
  {
    if pipeline in cache then Lookup(cache[pipeline], key) else Nil
  }

  /** `remember(key, value)`: merge one key into the pipeline's entry, creating the entry if needed. */
  function Remember(cache: Cache, pipeline: Value, key: Symbol, value: Value): (c: Cache)
    ensures c.Keys == cache.Keys + {pipeline}
    ensures forall q :: q in cache && q != pipeline ==> c[q] == cache[q]
    ensures key in c[pipeline] && c[pipeline][key] == value
    ensures pipeline !in cache ==> c[pipeline] == map[key := value]
    ensures pipeline in cache ==> c[pipeline].Keys == cache[pipeline].Keys + {key}
    ensures pipeline in cache ==> forall k :: k in cache[pipeline] && k != key ==> c[pipeline][k] == cache[pipeline][k]
  {
    if pipeline in cache then cache[pipeline := cache[pipeline][key := value]]
    else cache[pipeline := map[key := value]]
  }

  /** What `recall` gives after a `remember`: the new value for that key, the old answer for any other. */
  lemma RecallRemember(cache: Cache, pipeline: Value, key: Symbol, value: Value, q: Value, k: Symbol)
    ensures Recall(Remember(cache, pipeline, key, value), q, k)
         == if q == pipeline && k == key then value else Recall(cache, q, k)
  {
  }

  /** A second `remember` of the same key replaces the first entirely. */
  lemma RememberOverwrites(cache: Cache, pipeline: Value, key: Symbol, v1: Value, v2: Value)
    ensures Remember(Remember(cache, pipeline, key, v1), pipeline, key, v2) == Remember(cache, pipeline, key, v2)
  {
    var once := Remember(cache, pipeline, key, v2);
    var twice := Remember(Remember(cache, pipeline, key, v1), pipeline, key, v2);
    assert twice[pipeline] == once[pipeline];
  }
}
