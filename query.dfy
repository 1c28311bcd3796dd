/** Query-string construction shared by the list pages: a model of the host's
    `URLSearchParams` (an ordered list of entries that `append` extends), the
    reading side (`get` and the key order) and the optional filter entries
    both list loaders append. */
module Query {
  import opened Common

  /** The host's `URLSearchParams`, before percent-encoding. */
  class SearchParams {
    var entries: seq<Param>

    constructor ()
      ensures entries == []
    {
      entries := [];
    }

    /** `params.append(key, value)`: adds one entry at the end, keeping any
        earlier entry with the same key. */
    method Append(key: string, value: string)
      modifies this
      ensures entries == old(entries) + [(key, value)]
    {
      entries := entries + [(key, value)];
    }
  }

  /** The keys of a parameter list, in order. */
  function Keys(q: seq<Param>): (ks: seq<string>)
    ensures |ks| == |q|
  {
    if q == [] then [] else [q[0].0] + Keys(q[1..])
  }

  /** `params.get(key)`: the value of the first entry with that key. */
  function Lookup(q: seq<Param>, key: string): (v: Option<string>)
    ensures v.None? <==> key !in Keys(q)
  {
    if q == [] then None
    else if q[0].0 == key then Some(q[0].1)
    else Lookup(q[1..], key)
  }

  lemma {:induction false} KeysAppend(a: seq<Param>, b: seq<Param>)
    ensures Keys(a + b) == Keys(a) + Keys(b)
  {
    if a == [] {
      assert a + b == b;
    } else {
      assert (a + b)[1..] == a[1..] + b;
      KeysAppend(a[1..], b);
    }
  }

  lemma {:induction false} LookupAppend(a: seq<Param>, b: seq<Param>, key: string)
    ensures Lookup(a + b, key) == if key in Keys(a) then Lookup(a, key) else Lookup(b, key)
  {
    if a == [] {
      assert a + b == b;
    } else {
      assert (a + b)[1..] == a[1..] + b;
      LookupAppend(a[1..], b, key);
    }
  }

  /** The keys of a three-entry list. */
  lemma KeysOfThree(a: Param, b: Param, c: Param)
    ensures Keys([a, b, c]) == [a.0, b.0, c.0]
  {
    assert Keys([c]) == [c.0] by { assert [c][1..] == []; }
    assert Keys([b, c]) == [b.0] + Keys([c]) by { assert [b, c][1..] == [c]; }
    assert Keys([a, b, c]) == [a.0] + Keys([b, c]) by { assert [a, b, c][1..] == [b, c]; }
  }

  /** `get` on a three-entry list returns the value of its first entry with
      that key. */
  lemma LookupOfThree(a: Param, b: Param, c: Param, key: string)
    ensures Lookup([a, b, c], key) ==
      if a.0 == key then Some(a.1) else if b.0 == key then Some(b.1) else if c.0 == key then Some(c.1) else None
  {
    assert Lookup([c], key) == if c.0 == key then Some(c.1) else None by { assert [c][1..] == []; }
    assert Lookup([b, c], key) == if b.0 == key then Some(b.1) else Lookup([c], key) by { assert [b, c][1..] == [c]; }
    assert Lookup([a, b, c], key) == if a.0 == key then Some(a.1) else Lookup([b, c], key) by { assert [a, b, c][1..] == [b, c]; }
  }

  /** The entry `if (v) params.append(key, v)` contributes. */
  function OptionalParam(key: string, v: Option<string>): (q: seq<Param>)
    ensures q == [] <==> !Truthy(v)
    ensures Truthy(v) ==> q == [(key, v.value)]
  {
    if Truthy(v) then [(key, v.value)] else []
  }

  /** The entries the optional `categoryId`, `from` and `to` filters
      contribute, each only when truthy and always in that order. */
  function FilterParams(f: Filters): (q: seq<Param>)
  {
    OptionalParam("categoryId", f.categoryId)
      + OptionalParam("from", f.from)
      + OptionalParam("to", f.to)
  }

  /** The filter entries carry exactly the truthy fields, in their fixed
      order, so an empty or missing field never reaches the server. */
  lemma FilterParamsKeys(f: Filters)
    ensures Keys(FilterParams(f)) ==
      (if Truthy(f.categoryId) then ["categoryId"] else [])
      + (if Truthy(f.from) then ["from"] else [])
      + (if Truthy(f.to) then ["to"] else [])
  {
    var c, fr, t := OptionalParam("categoryId", f.categoryId), OptionalParam("from", f.from), OptionalParam("to", f.to);
    KeysAppend(c + fr, t);
    KeysAppend(c, fr);
  }

  /** `get` reads each filter back unchanged when it is truthy, and nothing
      otherwise. */
  lemma FilterParamsValues(f: Filters)
    ensures Lookup(FilterParams(f), "categoryId") == (if Truthy(f.categoryId) then f.categoryId else None)
    ensures Lookup(FilterParams(f), "from") == (if Truthy(f.from) then f.from else None)
    ensures Lookup(FilterParams(f), "to") == (if Truthy(f.to) then f.to else None)
  {
    var c, fr, t := OptionalParam("categoryId", f.categoryId), OptionalParam("from", f.from), OptionalParam("to", f.to);
    KeysAppend(c, fr);
    LookupAppend(c + fr, t, "categoryId");
    LookupAppend(c, fr, "categoryId");
    LookupAppend(c + fr, t, "from");
    LookupAppend(c, fr, "from");
    LookupAppend(c + fr, t, "to");
    LookupAppend(c, fr, "to");
  }
}
