/** `fetchData` (index.js:22-65) once its two remote calls have answered:
    the instance id and region are validated, the tagging API is asked for
    the instance's tags, and the tag list becomes a plain object from key to
    string. The metadata client, `JSON.parse` and the tagging API are
    parameters: their answers are inputs of the model. */
module Fetch {
  import opened Wrappers
  import opened Js

  const INFO_ID := "meta-data/instance-id"
  const INFO_DOC := "dynamic/instance-identity/document"

  const ID_MESSAGE := "Instance ID must be a non-empty string"
  const REGION_MESSAGE := "Region must be a non-empty string"
  const UNEXPECTED_ID_MESSAGE := "Unexpected Instance ID"

  /** `map.get(k)` on the Map the metadata client answers with. */
  function Get(info: map<string, string>, k: string): JsValue
  {
    if k in info then JsString(info[k]) else Undefined
  }

  /** The validated identity of the instance. */
  datatype InstanceIdentity = InstanceIdentity(id: string, region: string)

  /** The first half of `fetchData`: the metadata client's answer `info`,
      then `JSON.parse(doc).region` (given as `regionOf`, which either
      throws or yields the field), then the checks on the id and the region,
      in that order. Every error met on the way is passed on unchanged. */
  function ResolveIdentity(info: Result<map<string, string>, Error>,
                           regionOf: JsValue -> Result<JsValue, Error>): (r: Result<InstanceIdentity, Error>)
    ensures info.Failure? ==> r == Failure(info.error)
    ensures info.Success? ==>
      var id := Get(info.value, INFO_ID);
      var region := regionOf(Get(info.value, INFO_DOC));
      && (region.Failure? ==> r == Failure(region.error))
      && (region.Success? && !IsNonEmptyString(id) ==>
            r == Failure(TypeError(ID_MESSAGE)))
      && (region.Success? && IsNonEmptyString(id) && !IsNonEmptyString(region.value) ==>
            r == Failure(TypeError(REGION_MESSAGE)))
      && (r.Success? <==> region.Success? && IsNonEmptyString(id) && IsNonEmptyString(region.value))
      && (r.Success? ==> r.value == InstanceIdentity(id.s, region.value.s))
    ensures r.Success? ==> r.value.id != "" && r.value.region != ""
  {
    match info
    case Failure(e) => Failure(e)
    case Success(m) =>
      var id := Get(m, INFO_ID);
      match regionOf(Get(m, INFO_DOC))
      case Failure(e) => Failure(e)
      case Success(region) =>
        if !IsNonEmptyString(id) then Failure(TypeError(ID_MESSAGE))
        else if !IsNonEmptyString(region) then Failure(TypeError(REGION_MESSAGE))
        else Success(InstanceIdentity(id.s, region.s))
  }

  /** The client options and the request that `describeTags` is sent. */
  datatype TagsRequest = TagsRequest(
    apiVersion: string,
    region: string,
    maxResults: nat,
    filters: seq<(string, seq<string>)>)

  function RequestFor(ident: InstanceIdentity): TagsRequest
  {
    TagsRequest("2016-04-01", ident.region, 10,
                [("resource-id", [ident.id]), ("resource-type", ["instance"])])
  }

  /** One element of `data.Tags`; an absent `Value` is `None`. */
  datatype Tag = Tag(resourceId: string, key: string, value: Option<string>)

  /** `tag.Value === undefined ? 'true' : String(tag.Value)` */
  function TagValue(value: Option<string>): string
  {
    match value
    case None => "true"
    case Some(s) => s
  }

  /** The object the loop over `data.Tags` builds, one assignment
      `tags[tag.Key] = ...` per tag, in list order. */
  function BuildObject(tags: seq<Tag>): (o: Obj)
    ensures o.Valid()
  {
    if tags == [] then EMPTY_OBJECT
    else
      var t := tags[|tags| - 1];
      BuildObject(tags[..|tags| - 1]).Put(t.key, TagValue(t.value))
  }

  /** A key is in the built object exactly when some tag carries it (the
      prototype key aside, which assignment ignores). */
  lemma {:induction false} BuildObjectKeys(tags: seq<Tag>, k: string)
    ensures k in BuildObject(tags).fields <==>
      k != PROTO_KEY && exists i :: 0 <= i < |tags| && tags[i].key == k
  {
    if tags != [] {
      var n := |tags| - 1;
      BuildObjectKeys(tags[..n], k);
      if k != PROTO_KEY && (exists i :: 0 <= i < |tags| && tags[i].key == k) {
        var i :| 0 <= i < |tags| && tags[i].key == k;
        if i < n {
          assert tags[..n][i].key == k;
        }
      }
    }
  }

  /** The value of a key is that of its last tag: a later duplicate key
      overwrites an earlier one. */
  lemma {:induction false} BuildObjectLastWins(tags: seq<Tag>, j: nat)
    requires j < |tags| && tags[j].key != PROTO_KEY
    requires forall i :: j < i < |tags| ==> tags[i].key != tags[j].key
    ensures tags[j].key in BuildObject(tags).fields
    ensures BuildObject(tags).fields[tags[j].key] == TagValue(tags[j].value)
  {
    var n := |tags| - 1;
    if j < n {
      BuildObjectLastWins(tags[..n], j);
    }
  }

  /** Some tag carries key `x` before any tag carries key `y`. */
  ghost predicate FirstSeenBefore(tags: seq<Tag>, x: string, y: string)
  {
    exists i :: 0 <= i < |tags| && tags[i].key == x && NotSeenUpTo(tags, y, i)
  }

  ghost predicate NotSeenUpTo(tags: seq<Tag>, y: string, i: int)
  {
    forall j :: 0 <= j <= i && j < |tags| ==> tags[j].key != y
  }

  /** Keys are enumerated in the order of their first tag: for two keys
      of the object, the earlier one appears in the list before any tag
      with the later one. */
  lemma {:induction false} BuildObjectOrder(tags: seq<Tag>, a: nat, b: nat)
    requires a < b < |BuildObject(tags).order|
    ensures FirstSeenBefore(tags, BuildObject(tags).order[a], BuildObject(tags).order[b])
  {
    var n := |tags| - 1;
    var prefix := tags[..n];
    var before := BuildObject(prefix);
    var o := BuildObject(tags);
    assert o == before.Put(tags[n].key, TagValue(tags[n].value));
    var x, y := o.order[a], o.order[b];
    if b < |before.order| {
      assert before.order[a] == x && before.order[b] == y;
      BuildObjectOrder(prefix, a, b);
      var i :| 0 <= i < |prefix| && prefix[i].key == x && NotSeenUpTo(prefix, y, i);
      assert tags[i].key == x;
      assert NotSeenUpTo(tags, y, i) by {
        forall j | 0 <= j <= i && j < |tags| ensures tags[j].key != y {
          assert prefix[j] == tags[j];
        }
      }
    } else {
      // y is the key of the last tag, new to the object
      assert o.order == before.order + [tags[n].key];
      assert y == tags[n].key && y !in before.fields;
      assert x == before.order[a] && x in before.fields;
      BuildObjectKeys(prefix, y);
      BuildObjectKeys(prefix, x);
      var i :| 0 <= i < |prefix| && prefix[i].key == x;
      assert tags[i].key == x;
      assert NotSeenUpTo(tags, y, i) by {
        forall j | 0 <= j <= i && j < |tags| ensures tags[j].key != y {
          assert prefix[j] == tags[j];
        }
      }
    }
  }

  /** The loop over `data.Tags` (index.js:52-62): it stops at the first tag
      of another instance; otherwise it builds the object. */
  method ConvertTags(id: string, tags: seq<Tag>) returns (r: Result<Obj, Error>)
    ensures r.Failure? <==> exists i :: 0 <= i < |tags| && tags[i].resourceId != id
    ensures r.Failure? ==> r.error == PlainError(UNEXPECTED_ID_MESSAGE)
    ensures r.Success? ==> r.value == BuildObject(tags)
  {
    var obj := EMPTY_OBJECT;
    for i := 0 to |tags|
      invariant obj == BuildObject(tags[..i])
      invariant forall j :: 0 <= j < i ==> tags[j].resourceId == id
    {
      var tag := tags[i];
      if tag.resourceId != id {
        return Failure(PlainError(UNEXPECTED_ID_MESSAGE));
      }
      assert tags[..i + 1][..i] == tags[..i];
      obj := obj.Put(tag.key, TagValue(tag.value));
    }
    assert tags[..|tags|] == tags;
    return Success(obj);
  }

  /** `fetchData` once the metadata client has answered with `info`: the
      tagging API (`describeTags`) is called only for a validated identity,
      with that identity's request, and every error is passed on as is. */
  method FetchData(info: Result<map<string, string>, Error>,
                   regionOf: JsValue -> Result<JsValue, Error>,
                   describeTags: TagsRequest -> Result<seq<Tag>, Error>)
    returns (r: Result<Obj, Error>)
    ensures ResolveIdentity(info, regionOf).Failure? ==>
      r == Failure(ResolveIdentity(info, regionOf).error)
    ensures ResolveIdentity(info, regionOf).Success? ==>
      var ident := ResolveIdentity(info, regionOf).value;
      var listed := describeTags(RequestFor(ident));
      && (listed.Failure? ==> r == Failure(listed.error))
      && (listed.Success? ==>
            (r.Failure? <==> exists i :: 0 <= i < |listed.value| && listed.value[i].resourceId != ident.id))
      && (listed.Success? && r.Failure? ==> r.error == PlainError(UNEXPECTED_ID_MESSAGE))
      && (listed.Success? && r.Success? ==> r.value == BuildObject(listed.value))
    ensures r.Success? ==> r.value.Valid()
  {
    var resolved := ResolveIdentity(info, regionOf);
    if resolved.Failure? {
      return Failure(resolved.error);
    }
    var listed := describeTags(RequestFor(resolved.value));
    if listed.Failure? {
      return Failure(listed.error);
    }
    r := ConvertTags(resolved.value.id, listed.value);
  }
}
