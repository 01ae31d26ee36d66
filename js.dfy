/** The few JavaScript runtime notions the plugin depends on: dynamically
    typed values, the errors it raises or passes on, and assignment into a
    plain object literal `{}`, whose keys keep their first-insertion order. */
module Js {

  /** A JavaScript value, as far as `typeof v === 'string'` and truthiness
      can tell values apart. */
  datatype JsValue =
    | Undefined
    | Null
    | Boolean(b: bool)
    | Number(n: int)
    | JsString(s: string)
    | Object

  /** True exactly when `typeof v === 'string' && v !== ''`. */
  predicate IsNonEmptyString(v: JsValue)
  {
    v.JsString? && v.s != ""
  }

  /** The errors the plugin throws or hands to a callback. */
  datatype Error =
    | TypeError(message: string)
      /** `new Error(message)` */
    | PlainError(message: string)
      /** An error raised by code outside the plugin (the metadata client,
          `JSON.parse`, the tagging API), passed on unchanged. */
    | Upstream(detail: string)

  /** The one key that assigning a string into `{}` does not create: it
      names the prototype accessor, whose setter ignores non-object values. */
  const PROTO_KEY := "__proto__"

  /** `m[k] = v` on a plain object whose own properties are `m`. */
  function Assign(m: map<string, string>, k: string, v: string): map<string, string>
  {
    if k == PROTO_KEY then m else m[k := v]
  }

  /** A plain object: its own keys in enumeration order and their values. */
  datatype Obj = Obj(order: seq<string>, fields: map<string, string>)
  {
    /** Every key is listed exactly once and the listed keys are the fields. */
    ghost predicate Valid()
    {
      && (forall i, j :: 0 <= i < j < |order| ==> order[i] != order[j])
      && (forall k :: k in fields <==> k in order)
    }

    /** `obj[k] = v`: a new key goes to the end of the enumeration order,
        an existing one keeps its place and takes the new value. */
    function Put(k: string, v: string): (r: Obj)
      ensures Valid() ==> r.Valid()
      ensures r.fields == Assign(fields, k, v)
      ensures k in fields || k == PROTO_KEY ==> r.order == order
      ensures k !in fields && k != PROTO_KEY ==> r.order == order + [k]
    {
      if k == PROTO_KEY then this
      else Obj(if k in fields then order else order + [k], fields[k := v])
    }

    /** The `[key, value]` pairs a `for...in` loop visits, in order. */
    function Entries(): (es: seq<(string, string)>)
      requires Valid()
      ensures |es| == |order|
      ensures forall i :: 0 <= i < |es| ==> es[i].0 == order[i] && es[i].1 == fields[order[i]]
    {
      seq(|order|, i requires 0 <= i < |order| => (order[i], fields[order[i]]))
    }
  }

  /** A `for...in` loop over a plain object visits every own key exactly
      once, each with its current value. */
  lemma EntriesEachKeyOnce(o: Obj)
    requires o.Valid()
    ensures forall i, j :: 0 <= i < j < |o.Entries()| ==> o.Entries()[i].0 != o.Entries()[j].0
    ensures forall k :: k in o.fields <==> exists i :: 0 <= i < |o.Entries()| && o.Entries()[i].0 == k
    ensures forall i :: 0 <= i < |o.Entries()| ==>
      o.Entries()[i].0 in o.fields && o.Entries()[i].1 == o.fields[o.Entries()[i].0]
  {
    var es := o.Entries();
    forall k | k in o.fields
      ensures exists i :: 0 <= i < |es| && es[i].0 == k
    {
      var i :| 0 <= i < |o.order| && o.order[i] == k;
      assert es[i].0 == k;
    }
  }

  /** `{}` */
  const EMPTY_OBJECT := Obj([], map[])
}
