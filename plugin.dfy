/** The processor (index.js:13-20, index.js:71-126): construction from the
    options, `start`, `stop` and `process`. The fetch a processor starts is
    abstracted as the outcome its callback receives; the callback half of
    `start` is the method `Complete`. */
module Plugin {
  import opened Wrappers
  import opened Js
  import opened KeyPolicy
  import Fetch

  /** The options object. `caseOption` is `options.case` when it is a
      function and `None` when it is falsy. */
  datatype Options = Options(
    caseOption: Option<string -> string>,
    filter: FilterOption,
    inclusion: IncludeOption,
    cache: bool)

  /** `if (!options) options = {}` */
  const DEFAULT_OPTIONS := Options(None, FilterValue(false), IncludeValue(false), false)

  /** `plugin.cached(options)`: the same options with `cache: true`. */
  function CachedOptions(o: Options): (r: Options)
    ensures r.cache
    ensures r.caseOption == o.caseOption && r.filter == o.filter && r.inclusion == o.inclusion
  {
    o.(cache := true)
  }

  /** What a constructed processor holds besides its tags. */
  datatype Config = Config(caseFn: string -> string, filter: KeyFilter, cache: bool)

  /** The constructor's choices: `options.case || nocase`, the fetch
      (cached or not), and the filter, whose selection may throw. */
  function Configure(o: Options): (r: Result<Config, Error>)
    ensures r.Failure? <==> SelectFilter(o.filter, o.inclusion).Failure?
    ensures r.Failure? ==> r.error == SelectFilter(o.filter, o.inclusion).error
    ensures r.Success? ==> r.value.cache == o.cache
    ensures r.Success? ==> r.value.filter == SelectFilter(o.filter, o.inclusion).value
    ensures r.Success? && o.caseOption.None? ==> forall k :: r.value.caseFn(k) == Nocase(k)
    ensures r.Success? && o.caseOption.Some? ==> forall k :: r.value.caseFn(k) == o.caseOption.value(k)
  {
    match SelectFilter(o.filter, o.inclusion)
    case Failure(e) => Failure(e)
    case Success(f) =>
      Success(Config(if o.caseOption.Some? then o.caseOption.value else Nocase, f, o.cache))
  }

  /** A key that a processor may hold: non-empty, accepted by its filter,
      and not the one key that object assignment ignores. */
  ghost predicate Storable(k: string, filter: KeyFilter)
  {
    k != "" && k != PROTO_KEY && filter.Accepts(k)
  }

  /** One iteration of the loop in `start`: the raw key is normalised and,
      when the result is non-empty and accepted, assigned its raw value. */
  function StoreTag(m: map<string, string>, rawKey: string, value: string,
                    caseFn: string -> string, filter: KeyFilter): map<string, string>
  {
    var key := caseFn(rawKey);
    if key != "" && filter.Accepts(key) then Assign(m, key, value) else m
  }

  /** The loop in `start` over the raw `[key, value]` pairs, in enumeration
      order, writing into `m`. */
  function NormalizeInto(m: map<string, string>, entries: seq<(string, string)>,
                         caseFn: string -> string, filter: KeyFilter): map<string, string>
    decreases |entries|
  {
    if entries == [] then m
    else
      var e := entries[|entries| - 1];
      StoreTag(NormalizeInto(m, entries[..|entries| - 1], caseFn, filter), e.0, e.1, caseFn, filter)
  }

  /** A key ends up stored exactly when it was there already, or it is
      storable and is the normalised form of some raw key. */
  lemma {:induction false} NormalizedKeys(m: map<string, string>, entries: seq<(string, string)>,
                                          caseFn: string -> string, filter: KeyFilter, k: string)
    ensures k in NormalizeInto(m, entries, caseFn, filter) <==>
      k in m || (Storable(k, filter) && exists i :: 0 <= i < |entries| && caseFn(entries[i].0) == k)
  {
    if entries != [] {
      var n := |entries| - 1;
      NormalizedKeys(m, entries[..n], caseFn, filter, k);
      if exists i :: 0 <= i < |entries| && caseFn(entries[i].0) == k {
        var i :| 0 <= i < |entries| && caseFn(entries[i].0) == k;
        if i < n {
          assert caseFn(entries[..n][i].0) == k;
        }
      }
    }
  }

  /** The stored value of a key is that of the last raw key, in enumeration
      order, that normalises to it. */
  lemma {:induction false} NormalizedLastWins(m: map<string, string>, entries: seq<(string, string)>,
                                              caseFn: string -> string, filter: KeyFilter, j: nat)
    requires j < |entries| && Storable(caseFn(entries[j].0), filter)
    requires forall i :: j < i < |entries| ==> caseFn(entries[i].0) != caseFn(entries[j].0)
    ensures caseFn(entries[j].0) in NormalizeInto(m, entries, caseFn, filter)
    ensures NormalizeInto(m, entries, caseFn, filter)[caseFn(entries[j].0)] == entries[j].1
  {
    var n := |entries| - 1;
    if j < n {
      NormalizedLastWins(m, entries[..n], caseFn, filter, j);
    }
  }

  /** A key that no raw key normalises to keeps its earlier value. */
  lemma {:induction false} NormalizedUntouched(m: map<string, string>, entries: seq<(string, string)>,
                                               caseFn: string -> string, filter: KeyFilter, k: string)
    requires k in m
    requires forall i :: 0 <= i < |entries| ==> caseFn(entries[i].0) != k
    ensures k in NormalizeInto(m, entries, caseFn, filter)
    ensures NormalizeInto(m, entries, caseFn, filter)[k] == m[k]
  {
    if entries != [] {
      NormalizedUntouched(m, entries[..|entries| - 1], caseFn, filter, k);
    }
  }

  /** From the tag list to the stored tags: after `start` succeeds on the
      object built from `tags`, a key is stored exactly when it is storable
      and some tag's key normalises to it. */
  lemma StoredKeysFromTags(tags: seq<Fetch.Tag>, caseFn: string -> string, filter: KeyFilter, k: string)
    ensures k in NormalizeInto(map[], Fetch.BuildObject(tags).Entries(), caseFn, filter) <==>
      Storable(k, filter) &&
      exists i :: 0 <= i < |tags| && tags[i].key != PROTO_KEY && caseFn(tags[i].key) == k
  {
    var raw := Fetch.BuildObject(tags);
    var entries := raw.Entries();
    NormalizedKeys(map[], entries, caseFn, filter, k);
    if Storable(k, filter) {
      if exists i :: 0 <= i < |entries| && caseFn(entries[i].0) == k {
        var i :| 0 <= i < |entries| && caseFn(entries[i].0) == k;
        Fetch.BuildObjectKeys(tags, entries[i].0);
        var t :| 0 <= t < |tags| && tags[t].key == entries[i].0;
        assert tags[t].key != PROTO_KEY && caseFn(tags[t].key) == k;
      }
      if exists t :: 0 <= t < |tags| && tags[t].key != PROTO_KEY && caseFn(tags[t].key) == k {
        var t :| 0 <= t < |tags| && tags[t].key != PROTO_KEY && caseFn(tags[t].key) == k;
        Fetch.BuildObjectKeys(tags, tags[t].key);
        var i :| 0 <= i < |raw.order| && raw.order[i] == tags[t].key;
        assert caseFn(entries[i].0) == k;
      }
    }
  }

  /** `for (const k in this._tags)`: nothing to visit when the tags are
      `null`. */
  function Stored(tags: Option<map<string, string>>): map<string, string>
  {
    if tags.Some? then tags.value else map[]
  }

  /** The merge `process` performs on `metric.tags`. */
  function Merged(metricTags: map<string, string>, stored: map<string, string>): (r: map<string, string>)
    ensures r.Keys == metricTags.Keys + stored.Keys
    ensures forall k :: k in stored ==> r[k] == stored[k]
    ensures forall k :: k in metricTags && k !in stored ==> r[k] == metricTags[k]
  {
    metricTags + stored
  }

  /** Merging the same tags twice gives what merging them once gives. */
  lemma MergeIdempotent(metricTags: map<string, string>, stored: map<string, string>)
    ensures Merged(Merged(metricTags, stored), stored) == Merged(metricTags, stored)
  {
    var once := Merged(metricTags, stored);
    var twice := Merged(once, stored);
    assert twice.Keys == once.Keys;
    assert forall k :: k in twice ==> twice[k] == once[k];
  }

  /** A record passing through the processor; its `tags` object is
      updated in place. */
  class Metric {
    var tags: map<string, string>

    constructor (tags: map<string, string>)
      ensures this.tags == tags
    {
      this.tags := tags;
    }
  }

  /** A processor: its case function, its filter, whether it uses the
      shared fetch, its tags (`null` or an object), and the records it has
      emitted as `'metric'` events, in order. */
  class Processor {
    const caseFn: string -> string
    const filter: KeyFilter
    const cached: bool
    var tags: Option<map<string, string>>
    var emitted: seq<Metric>

    /** Every stored key is storable. */
    ghost predicate Valid()
      reads this
    {
      tags.Some? ==> forall k :: k in tags.value ==> Storable(k, filter)
    }

    constructor (cfg: Config)
      ensures Valid() && tags == None && emitted == []
      ensures caseFn == cfg.caseFn && filter == cfg.filter && cached == cfg.cache
    {
      caseFn, filter, cached := cfg.caseFn, cfg.filter, cfg.cache;
      tags, emitted := None, [];
    }

    /** The synchronous half of `start`: `this._tags = {}`, then the fetch
        is begun. */
    method Start()
      modifies this
      ensures Valid() && tags == Some(map[]) && emitted == old(emitted)
    {
      tags := Some(map[]);
    }

    /** The callback half of `start`: an error is handed back as it is and
        adds nothing; otherwise every raw key is normalised and, when
        storable, assigned its raw value, in enumeration order. */
    method Complete(fetched: Result<Obj, Error>) returns (err: Option<Error>)
      requires Valid() && tags.Some?
      requires fetched.Success? ==> fetched.value.Valid()
      modifies this
      ensures Valid() && emitted == old(emitted)
      ensures fetched.Failure? ==> err == Some(fetched.error) && tags == old(tags)
      ensures fetched.Success? ==> err == None
      ensures fetched.Success? ==>
        tags == Some(NormalizeInto(old(tags).value, fetched.value.Entries(), caseFn, filter))
    {
      if fetched.Failure? {
        return Some(fetched.error);
      }
      var raw := fetched.value;
      ghost var entries := raw.Entries();
      for i := 0 to |raw.order|
        invariant Valid() && emitted == old(emitted)
        invariant tags == Some(NormalizeInto(old(tags).value, entries[..i], caseFn, filter))
      {
        var rawKey := raw.order[i];
        var key := caseFn(rawKey);
        assert entries[..i + 1][..i] == entries[..i];
        if key != "" && filter.Accepts(key) {
          tags := Some(Assign(tags.value, key, raw.fields[rawKey]));
        }
      }
      assert entries[..|raw.order|] == entries;
      return None;
    }

    /** `stop`: the tags become `null`; the deferred callback is not
        modelled. */
    method Stop()
      modifies this
      ensures Valid() && tags == None && emitted == old(emitted)
    {
      tags := None;
    }

    /** `process`: every stored key is assigned into `metric.tags`,
        overwriting, and the record is emitted once. */
    method Process(metric: Metric)
      requires Valid()
      modifies metric, this`emitted
      ensures metric.tags == Merged(old(metric.tags), Stored(tags))
      ensures emitted == old(emitted) + [metric]
    {
      var stored := Stored(tags);
      var remaining := stored.Keys;
      while remaining != {}
        invariant remaining <= stored.Keys && emitted == old(emitted)
        invariant metric.tags == Merged(old(metric.tags), map k | k in stored && k !in remaining :: stored[k])
        decreases remaining
      {
        var k :| k in remaining;
        ghost var done := map j | j in stored && j !in remaining :: stored[j];
        metric.tags := Assign(metric.tags, k, stored[k]);
        remaining := remaining - {k};
        assert (map j | j in stored && j !in remaining :: stored[j]) == done[k := stored[k]];
      }
      assert (map k | k in stored && k !in remaining :: stored[k]) == stored;
      emitted := emitted + [metric];
    }
  }

  /** `plugin(options)`: a new processor, or the constructor's error. */
  method Create(o: Options) returns (r: Result<Processor, Error>)
    ensures Configure(o).Failure? ==> r == Failure(Configure(o).error)
    ensures Configure(o).Success? ==> r.Success? && fresh(r.value) && r.value.Valid()
    ensures Configure(o).Success? ==> r.value.tags == None && r.value.emitted == []
    ensures Configure(o).Success? ==>
      r.value.caseFn == Configure(o).value.caseFn && r.value.filter == Configure(o).value.filter &&
      r.value.cached == o.cache
  {
    var cfg := Configure(o);
    if cfg.Failure? {
      return Failure(cfg.error);
    }
    var p := new Processor(cfg.value);
    return Success(p);
  }
}
