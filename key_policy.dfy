/** The key policy: the default case function `nocase`, the default filter
    `identity`, and how the `filter` and `include` options become the filter
    a processor consults (index.js:7-8, index.js:80-92). */
module KeyPolicy {
  import opened Wrappers
  import opened Js

  /** A character that survives `replace(/[^a-z0-9]+/g, '')`. */
  predicate IsKeyChar(c: char)
  {
    'a' <= c <= 'z' || '0' <= c <= '9'
  }

  /** `toLowerCase` on one ASCII character; every other character is kept. */
  function LowerChar(c: char): char
  {
    if 'A' <= c <= 'Z' then (c as int + 32) as char else c
  }

  /** `s.toLowerCase()`, restricted to ASCII letters. */
  function ToLowerCase(s: string): (r: string)
    ensures |r| == |s|
    ensures forall i :: 0 <= i < |s| ==> r[i] == LowerChar(s[i])
  {
    seq(|s|, i requires 0 <= i < |s| => LowerChar(s[i]))
  }

  /** `s.replace(/[^a-z0-9]+/g, '')`: every run of other characters is
      replaced by nothing, which deletes each such character. */
  function StripNonKeyChars(s: string): (r: string)
    ensures |r| <= |s|
    ensures forall i :: 0 <= i < |r| ==> IsKeyChar(r[i])
    ensures forall i :: 0 <= i < |s| && IsKeyChar(s[i]) ==> s[i] in r
  {
    if s == [] then []
    else (if IsKeyChar(s[0]) then [s[0]] else []) + StripNonKeyChars(s[1..])
  }

  /** The default case function `nocase`. */
  function Nocase(key: string): (r: string)
    ensures |r| <= |key|
    ensures forall i :: 0 <= i < |r| ==> IsKeyChar(r[i])
  {
    StripNonKeyChars(ToLowerCase(key))
  }

  /** The default filter `identity`: it returns the key itself, which the
      caller then tests for truthiness. */
  function Identity(key: string): string
  {
    key
  }

  /** On one character the deletion keeps exactly the key characters;
      with `StripConcat` this fixes the result on every string. */
  lemma StripOne(c: char)
    ensures StripNonKeyChars([c]) == if IsKeyChar(c) then [c] else []
  {
    assert [c][1..] == [];
  }

  lemma {:induction false} StripFixedPoint(s: string)
    ensures StripNonKeyChars(s) == s <==> forall i :: 0 <= i < |s| ==> IsKeyChar(s[i])
  {
    if s != [] {
      StripFixedPoint(s[1..]);
      if !IsKeyChar(s[0]) {
        // the result is no longer than s[1..], so it cannot be s
        assert |StripNonKeyChars(s)| < |s|;
      } else {
        assert forall i :: 1 <= i < |s| ==> s[1..][i - 1] == s[i];
      }
    }
  }

  /** Keys made only of `a-z` and `0-9` are exactly the keys `nocase`
      leaves unchanged. */
  lemma NocaseFixedPoint(key: string)
    ensures Nocase(key) == key <==> forall i :: 0 <= i < |key| ==> IsKeyChar(key[i])
  {
    if forall i :: 0 <= i < |key| ==> IsKeyChar(key[i]) {
      assert ToLowerCase(key) == key;
      StripFixedPoint(key);
    }
  }

  /** `nocase` is idempotent. */
  lemma NocaseIdempotent(key: string)
    ensures Nocase(Nocase(key)) == Nocase(key)
  {
    NocaseFixedPoint(Nocase(key));
  }

  /** Deleting characters one by one is local: `nocase` of a concatenation
      is the concatenation of the two results, so runs of deleted
      characters never merge or split surrounding characters. */
  lemma {:induction false} StripConcat(a: string, b: string)
    ensures StripNonKeyChars(a + b) == StripNonKeyChars(a) + StripNonKeyChars(b)
  {
    if a != [] {
      assert (a + b)[1..] == a[1..] + b;
      StripConcat(a[1..], b);
    } else {
      assert a + b == b;
    }
  }

  lemma NocaseConcat(a: string, b: string)
    ensures Nocase(a + b) == Nocase(a) + Nocase(b)
  {
    assert ToLowerCase(a + b) == ToLowerCase(a) + ToLowerCase(b);
    StripConcat(ToLowerCase(a), ToLowerCase(b));
  }

  /** The filter a processor consults, one variant per branch of the
      constructor. */
  datatype KeyFilter =
      /** `options.filter`, a user function of the key */
    | Custom(f: string -> bool)
      /** `const keys = new Set(options.include); (k) => keys.has(k)` */
    | Included(keys: seq<string>)
      /** `identity` */
    | AcceptAll
  {
    /** Whether `this._filter(key)` is truthy. */
    predicate Accepts(key: string)
    {
      match this
      case Custom(f) => f(key)
      case Included(keys) => key in keys
      case AcceptAll => Identity(key) != ""  // a string is truthy unless empty
    }
  }

  /** The `filter` option: a function, or any other value, truthy or not. */
  datatype FilterOption = FilterFunction(f: string -> bool) | FilterValue(truthy: bool)

  /** The `include` option: an array, or any other value, truthy or not. */
  datatype IncludeOption = IncludeArray(keys: seq<string>) | IncludeValue(truthy: bool)

  const FILTER_MESSAGE := "The \"filter\" option must be a function"
  const INCLUDE_MESSAGE := "The \"include\" option must be an array"

  /** The filter selection of the constructor: a function `filter` wins
      whatever `include` holds; a truthy non-function `filter` throws; an
      `include` array becomes a membership test; a truthy non-array
      `include` throws; otherwise every key is accepted. */
  function SelectFilter(filter: FilterOption, inclusion: IncludeOption): (r: Result<KeyFilter, Error>)
    ensures filter.FilterFunction? ==>
      r.Success? && forall k :: r.value.Accepts(k) == filter.f(k)
    ensures r.Failure? && r.error == TypeError(FILTER_MESSAGE) <==>
      filter.FilterValue? && filter.truthy
    ensures r.Failure? && r.error == TypeError(INCLUDE_MESSAGE) <==>
      filter.FilterValue? && !filter.truthy && inclusion.IncludeValue? && inclusion.truthy
    ensures r.Failure? ==> r.error in {TypeError(FILTER_MESSAGE), TypeError(INCLUDE_MESSAGE)}
    ensures filter.FilterValue? && !filter.truthy && inclusion.IncludeArray? ==>
      r.Success? && forall k :: r.value.Accepts(k) <==> k in inclusion.keys
    ensures filter.FilterValue? && !filter.truthy && inclusion.IncludeValue? && !inclusion.truthy ==>
      r.Success? && forall k :: r.value.Accepts(k) <==> k != ""
  {
    if filter.FilterFunction? then Success(Custom(filter.f))
    else if filter.truthy then Failure(TypeError(FILTER_MESSAGE))
    else if inclusion.IncludeArray? then Success(Included(inclusion.keys))
    else if inclusion.truthy then Failure(TypeError(INCLUDE_MESSAGE))
    else Success(AcceptAll)
  }
}
