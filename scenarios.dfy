/** The scenarios of test.js, replayed on the model: the metadata client
    answers with instance `fake_id` in region `fake_region`, and the tagging
    API with three tags `a_A`, `b` and `c`. */
module Scenarios {
  import opened Wrappers
  import opened Js
  import opened KeyPolicy
  import opened Fetch
  import opened Plugin
  import opened SingleFlight

  const METADATA: Result<map<string, string>, Error> :=
    Success(map[INFO_ID := "fake_id", INFO_DOC := "{\"region\":\"fake_region\"}"])

  /** `JSON.parse(doc).region` on the test's identity document. */
  function TestRegionOf(doc: JsValue): Result<JsValue, Error>
  {
    Success(JsString("fake_region"))
  }

  const TEST_TAGS := [
    Tag("fake_id", "a_A", Some("a")),
    Tag("fake_id", "b", Some("b")),
    Tag("fake_id", "c", Some("c"))
  ]

  function TestDescribeTags(q: TagsRequest): Result<seq<Tag>, Error>
  {
    Success(TEST_TAGS)
  }

  /** `key.toUpperCase()`, restricted to ASCII letters. */
  function ToUpperCase(s: string): (r: string)
    ensures |r| == |s|
  {
    seq(|s|, i requires 0 <= i < |s| => if 'a' <= s[i] <= 'z' then (s[i] as int - 32) as char else s[i])
  }

  const RAW := Obj(["a_A", "b", "c"], map["a_A" := "a", "b" := "b", "c" := "c"])
  const RAW_ENTRIES := [("a_A", "a"), ("b", "b"), ("c", "c")]

  lemma TestIdentity()
    ensures ResolveIdentity(METADATA, TestRegionOf) == Success(InstanceIdentity("fake_id", "fake_region"))
  {
    var m := METADATA.value;
    assert INFO_ID in m && m[INFO_ID] == "fake_id";
    assert INFO_DOC in m;
  }

  lemma BuildSnoc(tags: seq<Tag>, t: Tag)
    ensures BuildObject(tags + [t]) == BuildObject(tags).Put(t.key, TagValue(t.value))
  {
    assert (tags + [t])[..|tags|] == tags;
  }

  const O1 := Obj(["a_A"], map["a_A" := "a"])
  const O2 := Obj(["a_A", "b"], map["a_A" := "a", "b" := "b"])

  lemma FirstTag()
    ensures BuildObject([TEST_TAGS[0]]) == O1
  {
    BuildSnoc([], TEST_TAGS[0]);
    assert [] + [TEST_TAGS[0]] == [TEST_TAGS[0]];
    assert |PROTO_KEY| == 9 && "a_A" != PROTO_KEY;
  }

  lemma SecondTag()
    ensures BuildObject(TEST_TAGS[..2]) == O2
  {
    FirstTag();
    BuildSnoc([TEST_TAGS[0]], TEST_TAGS[1]);
    assert [TEST_TAGS[0]] + [TEST_TAGS[1]] == TEST_TAGS[..2];
    assert |PROTO_KEY| == 9;
    assert "b" != "a_A" && "b" != PROTO_KEY;
    assert O1.Put("b", "b") == Obj(O1.order + ["b"], O1.fields["b" := "b"]);
    assert O1.order + ["b"] == O2.order && O1.fields["b" := "b"] == O2.fields;
  }

  lemma TestObject()
    ensures BuildObject(TEST_TAGS) == RAW && RAW.Valid()
    ensures RAW.Entries() == RAW_ENTRIES
  {
    SecondTag();
    BuildSnoc(TEST_TAGS[..2], TEST_TAGS[2]);
    assert TEST_TAGS[..2] + [TEST_TAGS[2]] == TEST_TAGS;
    assert |PROTO_KEY| == 9;
    assert "c" != "a_A" && "c" != "b" && "c" != PROTO_KEY;
    assert O2.Put("c", "c") == Obj(O2.order + ["c"], O2.fields["c" := "c"]);
    assert O2.order + ["c"] == RAW.order && O2.fields["c" := "c"] == RAW.fields;
    TestEntries();
  }

  lemma TestEntries()
    ensures RAW.Valid() && RAW.Entries() == RAW_ENTRIES
  {
    assert RAW.Valid() by {
      assert forall k :: k in RAW.fields <==> k in RAW.order;
      assert RAW.order[0] != RAW.order[1] && RAW.order[0] != RAW.order[2] && RAW.order[1] != RAW.order[2] by {
        assert RAW.order[0][0] == 'a' && RAW.order[1][0] == 'b' && RAW.order[2][0] == 'c';
      }
    }
    var es := RAW.Entries();
    assert |es| == 3;
    assert es[0] == RAW_ENTRIES[0] && es[1] == RAW_ENTRIES[1] && es[2] == RAW_ENTRIES[2];
  }

  /** The fetch of the tests yields the object `{a_A: 'a', b: 'b', c: 'c'}`. */
  method FetchTestTags() returns (r: Result<Obj, Error>)
    ensures r == Success(RAW) && RAW.Valid()
    ensures RAW.Entries() == RAW_ENTRIES
  {
    TestIdentity();
    TestObject();
    r := FetchData(METADATA, TestRegionOf, TestDescribeTags);
  }

  /** `start`'s loop over the three test entries, one step at a time. */
  lemma NormalizeTestEntries(caseFn: string -> string, filter: KeyFilter)
    ensures NormalizeInto(map[], RAW_ENTRIES, caseFn, filter) ==
      StoreTag(StoreTag(StoreTag(map[], "a_A", "a", caseFn, filter), "b", "b", caseFn, filter), "c", "c", caseFn, filter)
  {
    var e0, e1, e2 := ("a_A", "a"), ("b", "b"), ("c", "c");
    NormalizeSnoc(map[], [], e0, caseFn, filter);
    assert [] + [e0] == [e0];
    NormalizeSnoc(map[], [e0], e1, caseFn, filter);
    assert [e0] + [e1] == [e0, e1];
    NormalizeSnoc(map[], [e0, e1], e2, caseFn, filter);
    assert [e0, e1] + [e2] == RAW_ENTRIES;
  }

  lemma NormalizeSnoc(m: map<string, string>, es: seq<(string, string)>, e: (string, string),
                      caseFn: string -> string, filter: KeyFilter)
    ensures NormalizeInto(m, es + [e], caseFn, filter) ==
      StoreTag(NormalizeInto(m, es, caseFn, filter), e.0, e.1, caseFn, filter)
  {
    assert (es + [e])[..|es|] == es;
  }

  lemma NocaseOfTestKeys()
    ensures Nocase("a_A") == "aa" && Nocase("b") == "b" && Nocase("c") == "c"
  {
    assert ToLowerCase("a_A") == "a_a";
    assert StripNonKeyChars("a") == "a";
    assert StripNonKeyChars("_a") == "a";
    assert ToLowerCase("b") == "b";
    assert ToLowerCase("c") == "c";
  }

  lemma UpperOfTestKeys()
    ensures ToUpperCase("a_A") == "A_A" && ToUpperCase("b") == "B" && ToUpperCase("c") == "C"
  {
  }

  /** With `nocase` and a filter that rejects `b` (or keeps only `aa` and
      `c`), the stored tags are `{aa: 'a', c: 'c'}`. */
  lemma NocaseWithoutB(caseFn: string -> string, filter: KeyFilter)
    requires forall k :: caseFn(k) == Nocase(k)
    requires filter.Accepts("aa") && !filter.Accepts("b") && filter.Accepts("c")
    ensures NormalizeInto(map[], RAW.Entries(), caseFn, filter) == map["aa" := "a", "c" := "c"]
  {
    TestObject();
    NormalizeTestEntries(caseFn, filter);
    NocaseOfTestKeys();
    assert StoreTag(map[], "a_A", "a", caseFn, filter) == map["aa" := "a"];
  }

  /** With upper-casing and a filter that rejects `B`, the stored tags are
      `{A_A: 'a', C: 'c'}`. */
  lemma UpperWithoutB(caseFn: string -> string, filter: KeyFilter)
    requires forall k :: caseFn(k) == ToUpperCase(k)
    requires filter.Accepts("A_A") && !filter.Accepts("B") && filter.Accepts("C")
    ensures NormalizeInto(map[], RAW.Entries(), caseFn, filter) == map["A_A" := "a", "C" := "c"]
  {
    TestObject();
    NormalizeTestEntries(caseFn, filter);
    UpperOfTestKeys();
    assert StoreTag(map[], "a_A", "a", caseFn, filter) == map["A_A" := "a"];
  }

  /** With upper-casing and a filter that rejects `A_A`, the stored tags
      are `{B: 'b', C: 'c'}`. */
  lemma UpperWithoutAA(caseFn: string -> string, filter: KeyFilter)
    requires forall k :: caseFn(k) == ToUpperCase(k)
    requires !filter.Accepts("A_A") && filter.Accepts("B") && filter.Accepts("C")
    ensures NormalizeInto(map[], RAW.Entries(), caseFn, filter) == map["B" := "b", "C" := "c"]
  {
    TestObject();
    NormalizeTestEntries(caseFn, filter);
    UpperOfTestKeys();
    assert StoreTag(map[], "a_A", "a", caseFn, filter) == map[];
    assert StoreTag(map[], "b", "b", caseFn, filter) == map["B" := "b"];
  }

  /** Adding two new keys to `{existing: '1'}`. */
  lemma ExistingPlus(k1: string, v1: string, k2: string, v2: string)
    requires k1 != "existing" && k2 != "existing"
    ensures Merged(map["existing" := "1"], map[k1 := v1, k2 := v2]) == map["existing" := "1", k1 := v1, k2 := v2]
  {
  }

  /** The callback of a started processor receives `fetched`; then one
      `process` on `{existing: '1'}`. */
  method CompleteAndProcess(p: Processor, fetched: Result<Obj, Error>) returns (tags: map<string, string>)
    requires p.Valid() && p.tags == Some(map[]) && (fetched.Success? ==> fetched.value.Valid())
    modifies p
    ensures fetched.Success? ==>
      tags == Merged(map["existing" := "1"], NormalizeInto(map[], fetched.value.Entries(), p.caseFn, p.filter))
    ensures fetched.Failure? ==> tags == map["existing" := "1"]
  {
    var err := p.Complete(fetched);
    var metric := new Metric(map["existing" := "1"]);
    p.Process(metric);
    tags := metric.tags;
  }

  /** Runs `start` to completion and one `process` on `{existing: '1'}`. */
  method StartAndProcess(p: Processor, fetched: Result<Obj, Error>) returns (tags: map<string, string>)
    requires p.Valid() && (fetched.Success? ==> fetched.value.Valid())
    modifies p
    ensures fetched.Success? ==>
      tags == Merged(map["existing" := "1"], NormalizeInto(map[], fetched.value.Entries(), p.caseFn, p.filter))
    ensures fetched.Failure? ==> tags == map["existing" := "1"]
  {
    p.Start();
    tags := CompleteAndProcess(p, fetched);
  }

  /** test.js 'basic': a filter function that rejects `b`. */
  method BasicScenario() returns (tags: map<string, string>)
    ensures tags == map["existing" := "1", "aa" := "a", "c" := "c"]
  {
    var o := Options(None, FilterFunction(k => k != "b"), IncludeValue(false), false);
    var created := Create(o);
    var p := created.value;
    assert forall k :: p.caseFn(k) == Nocase(k);
    assert forall k :: p.filter.Accepts(k) == (k != "b");
    assert p.filter.Accepts("aa") && !p.filter.Accepts("b") && p.filter.Accepts("c");
    var fetched := FetchTestTags();
    NocaseWithoutB(p.caseFn, p.filter);
    tags := StartAndProcess(p, fetched);
    ExistingPlus("aa", "a", "c", "c");
  }

  /** test.js 'include option': `include: ['aa', 'c']`. */
  method IncludeScenario() returns (tags: map<string, string>)
    ensures tags == map["existing" := "1", "aa" := "a", "c" := "c"]
  {
    var created := Create(Options(None, FilterValue(false), IncludeArray(["aa", "c"]), false));
    var p := created.value;
    assert forall k :: p.caseFn(k) == Nocase(k);
    assert forall k :: p.filter.Accepts(k) <==> k in ["aa", "c"];
    assert "b" != "aa" && "b" != "c";
    assert p.filter.Accepts("aa") && !p.filter.Accepts("b") && p.filter.Accepts("c");
    var fetched := FetchTestTags();
    NocaseWithoutB(p.caseFn, p.filter);
    tags := StartAndProcess(p, fetched);
    ExistingPlus("aa", "a", "c", "c");
  }

  /** test.js 'custom case': upper-casing, and a filter that rejects `B`. */
  method CustomCaseScenario() returns (tags: map<string, string>)
    ensures tags == map["existing" := "1", "A_A" := "a", "C" := "c"]
  {
    var created := Create(Options(Some(ToUpperCase), FilterFunction(k => k != "B"), IncludeValue(false), false));
    var p := created.value;
    var fetched := FetchTestTags();
    UpperWithoutB(p.caseFn, p.filter);
    tags := StartAndProcess(p, fetched);
    ExistingPlus("A_A", "a", "C", "c");
  }

  /** Two callers of one thunk, the second calling while the fetch runs:
      the fetch is started once and both receive its outcome. */
  method SharedFetch() returns (delivered: seq<Delivery<Obj, Error>>, runs: nat)
    ensures runs == 1
    ensures delivered == [Delivery(1, Success(RAW)), Delivery(2, Success(RAW))]
  {
    var thunk := new Thunk<Obj, Error>();
    var started1, answered1 := thunk.Call(1);
    var started2, answered2 := thunk.Call(2);
    assert started1 && !started2 && answered1 == [] && answered2 == [];
    var fetched := FetchTestTags();
    delivered := thunk.Done(fetched);
    assert [1, 2][1..] == [2] && [2][1..] == [];
    assert DeliverAll([2], fetched) == [Delivery(2, fetched)];
    runs := (if started1 then 1 else 0) + (if started2 then 1 else 0);
  }

  /** test.js 'cached': two processors share one thunk; the fetch runs
      once and each processor applies its own policy to the shared result. */
  method CachedScenario() returns (tags1: map<string, string>, tags2: map<string, string>, runs: nat)
    ensures runs == 1
    ensures tags1 == map["existing" := "1", "aa" := "a", "c" := "c"]
    ensures tags2 == map["existing" := "1", "B" := "b", "C" := "c"]
  {
    var c1 := Create(CachedOptions(Options(None, FilterFunction(k => k != "b"), IncludeValue(false), false)));
    var c2 := Create(CachedOptions(Options(Some(ToUpperCase), FilterFunction(k => k != "A_A"), IncludeValue(false), false)));
    var p1, p2 := c1.value, c2.value;
    assert forall k :: p1.caseFn(k) == Nocase(k);
    assert forall k :: p1.filter.Accepts(k) == (k != "b");
    assert p1.filter.Accepts("aa") && !p1.filter.Accepts("b") && p1.filter.Accepts("c");
    assert forall k :: p2.caseFn(k) == ToUpperCase(k);
    assert forall k :: p2.filter.Accepts(k) == (k != "A_A");
    assert !p2.filter.Accepts("A_A") && p2.filter.Accepts("B") && p2.filter.Accepts("C");
    NocaseWithoutB(p1.caseFn, p1.filter);
    UpperWithoutAA(p2.caseFn, p2.filter);

    p1.Start();
    p2.Start();
    var delivered;
    delivered, runs := SharedFetch();
    TestObject();
    tags1 := CompleteAndProcess(p1, delivered[0].outcome);
    tags2 := CompleteAndProcess(p2, delivered[1].outcome);
    ExistingPlus("aa", "a", "c", "c");
    ExistingPlus("B", "b", "C", "c");
  }

  /** A tag whose `Value` is absent is stored as the string `'true'`. */
  method UndefinedValueScenario() returns (r: Result<Obj, Error>)
    ensures r == Success(Obj(["flag"], map["flag" := "true"]))
  {
    var tags := [Tag("fake_id", "flag", None)];
    r := ConvertTags("fake_id", tags);
    assert tags == [] + [tags[0]];
    BuildSnoc([], tags[0]);
    assert |PROTO_KEY| == 9 && "flag" != PROTO_KEY;
    assert EMPTY_OBJECT.Put("flag", "true") == Obj([] + ["flag"], map[]["flag" := "true"]);
    assert [] + ["flag"] == ["flag"] && map[]["flag" := "true"] == map["flag" := "true"];
  }

  /** A tag of another instance makes `start` fail with the error, and
      `process` then adds nothing. */
  method ForeignTagScenario() returns (err: Option<Error>, tags: map<string, string>)
    ensures err == Some(PlainError(UNEXPECTED_ID_MESSAGE))
    ensures tags == map["existing" := "1"]
  {
    var created := Create(DEFAULT_OPTIONS);
    var p := created.value;
    var fetched := ConvertTags("fake_id", [Tag("fake_id", "a", Some("a")), Tag("other_id", "b", Some("b"))]);
    assert fetched.Failure?;
    p.Start();
    err := p.Complete(fetched);
    var metric := new Metric(map["existing" := "1"]);
    p.Process(metric);
    tags := metric.tags;
  }

  /** `stop`, then one `process` on `{existing: '1'}`: nothing is added,
      whatever the processor held. */
  method StopAndProcess(p: Processor) returns (tags: map<string, string>)
    requires p.Valid()
    modifies p
    ensures tags == map["existing" := "1"]
  {
    p.Stop();
    assert Stored(p.tags) == map[];
    var metric := new Metric(map["existing" := "1"]);
    p.Process(metric);
    tags := metric.tags;
    assert Merged(map["existing" := "1"], map[]) == map["existing" := "1"];
  }

  /** After `stop`, `process` adds nothing, even though `start` had
      stored tags. */
  method StoppedScenario() returns (tags: map<string, string>)
    ensures tags == map["existing" := "1"]
  {
    var created := Create(DEFAULT_OPTIONS);
    var p := created.value;
    var fetched := FetchTestTags();
    p.Start();
    var err := p.Complete(fetched);
    tags := StopAndProcess(p);
  }
}
