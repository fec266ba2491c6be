/** Decoded JSON documents as Python's `json` module hands them back, with
    the three Python operations the dispatcher applies to them: truth value,
    subscripting by a string key, and the `in` test. */
module JsonValues {
  import opened Basics

  /** A decoded JSON value. Numbers are kept integral: only their truth
      value matters here. */
  datatype Json =
    | Null
    | Bool(b: bool)
    | Number(n: int)
    | Str(s: string)
    | Array(items: seq<Json>)
    | Object(fields: map<string, Json>)

  /** `bool(j)`: `None`, `False`, `0` and empty containers are false. */
  predicate Truthy(j: Json)
  {
    match j
    case Null => false
    case Bool(b) => b
    case Number(n) => n != 0
    case Str(s) => s != ""
    case Array(items) => |items| > 0
    case Object(fields) => |fields| > 0
  }

  /** `j[key]` for a string key; `None` when Python raises (a `KeyError` on
      a dict without the key, a `TypeError` on anything else). */
  function Subscript(j: Json, key: string): (r: Option<Json>)
    ensures r.Some? <==> j.Object? && key in j.fields
    ensures r.Some? ==> r.value == j.fields[key]
  {
    if j.Object? && key in j.fields then Some(j.fields[key]) else None
  }

  /** `t` occurs in `s` as a contiguous substring, tested at each start
      position in turn. */
  predicate Occurs(t: string, s: string)
    decreases |s|
  {
    t <= s || (|s| > 0 && Occurs(t, s[1..]))
  }

  /** `t` is the slice of `s` starting at some index. */
  predicate SliceAt(t: string, s: string, i: int)
  {
    0 <= i && i + |t| <= |s| && s[i..i + |t|] == t
  }

  /** The scan finds `t` exactly when `t` is some slice of `s`. */
  lemma {:induction false} OccursIffSlice(t: string, s: string)
    ensures Occurs(t, s) <==> exists i :: SliceAt(t, s, i)
    decreases |s|
  {
    if t <= s {
      assert s[0..|t|] == t;
      assert SliceAt(t, s, 0);
    } else if |s| == 0 {
      assert |t| > 0;
    } else {
      OccursIffSlice(t, s[1..]);
      if exists i :: SliceAt(t, s[1..], i) {
        var i :| SliceAt(t, s[1..], i);
        assert s[1..][i..i + |t|] == s[i + 1..i + 1 + |t|];
        assert SliceAt(t, s, i + 1);
      }
      if exists i :: SliceAt(t, s, i) {
        var i :| SliceAt(t, s, i);
        if i == 0 {
          assert false;
        }
        assert s[i..i + |t|] == s[1..][i - 1..i - 1 + |t|];
        assert SliceAt(t, s[1..], i - 1);
      }
    }
  }

  /** `key in j`: key membership for a dict, element membership for a list,
      substring test for a string; `None` when Python raises `TypeError`. */
  function Contains(j: Json, key: string): (r: Option<bool>)
    ensures r.None? <==> j.Null? || j.Bool? || j.Number?
    ensures j.Object? ==> (r == Some(true) <==> Subscript(j, key).Some?)
    ensures j.Array? ==> (r == Some(true) <==> exists i :: 0 <= i < |j.items| && j.items[i] == Str(key))
    ensures j.Str? ==> (r == Some(true) <==> exists i :: SliceAt(key, j.s, i))
  {
    match j
    case Object(fields) => Some(key in fields)
    case Array(items) => Some(Str(key) in items)
    case Str(s) => OccursIffSlice(key, s); Some(Occurs(key, s))
    case _ => None
  }

  /** A string-or-`None` as `json.dumps` writes it. */
  function Encode(v: Option<string>): (j: Json)
    ensures j.Null? <==> v.None?
    ensures j.Str? <==> v.Some?
  {
    match v
    case None => Null
    case Some(s) => Str(s)
  }

  /** The inverse of `Encode` on the values it produces. */
  function Decode(j: Json): (r: Option<Option<string>>)
    ensures r.Some? <==> j.Null? || j.Str?
  {
    match j
    case Null => Some(None)
    case Str(s) => Some(Some(s))
    case _ => None
  }

  lemma DecodeEncode(v: Option<string>)
    ensures Decode(Encode(v)) == Some(v)
  {
  }

  /** A string is written as a JSON string of the same text, so different
      fields never serialize alike. */
  lemma EncodeInjective(a: Option<string>, b: Option<string>)
    ensures a.Some? ==> Encode(a) == Str(a.value)
    ensures Encode(a) == Encode(b) ==> a == b
  {
    DecodeEncode(a);
    DecodeEncode(b);
  }
}
