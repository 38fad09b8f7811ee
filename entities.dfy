/**
 * The entity dictionary the intent parser hands the writers (`data` in
 * src/bookiebot/sheets/writer.py): JSON scalars under string keys, in
 * insertion order, and the Python operations the writers apply to them:
 * truthiness, `or`, `str`, `float`, `.strip()`, `d.get(k)` and `d[k] = v`.
 */
module Entities {
  import opened Wrappers
  import opened PyText
  import opened Money
  import Schema

  /** A JSON scalar as `json.loads` returns it: None, bool, int, float or str. */
  datatype Scalar = Null | Bool(b: bool) | Int(i: int) | Float(x: real) | Str(s: string)

  /** The entity dictionary. */
  type Data = Schema.Table<Scalar>

  /** Python truthiness of a scalar. */
  predicate Truthy(v: Scalar) {
    match v
    case Null => false
    case Bool(b) => b
    case Int(i) => i != 0
    case Float(x) => x != 0.0
    case Str(s) => s != ""
  }

  /** `a or b`. */
  function Or(a: Scalar, b: Scalar): (r: Scalar)
    ensures Truthy(r) <==> Truthy(a) || Truthy(b)
  {
    if Truthy(a) then a else b
  }

  /** `str(v)`; a float is shown as `str` shows it (see `Money.ReprFloat`). */
  function PyStr(v: Scalar): string {
    match v
    case Null => "None"
    case Bool(b) => if b then "True" else "False"
    case Int(i) => IntToString(i)
    case Float(x) => ReprFloat(x)
    case Str(s) => s
  }

  /** `float(v)`: a TypeError for None, a ValueError for text that is not a number. */
  function PyFloatOf(v: Scalar): Result<real> {
    match v
    case Null => Raised("TypeError")
    case Bool(b) => Ok(if b then 1.0 else 0.0)
    case Int(i) => Ok(i as real)
    case Float(x) => Ok(x)
    case Str(s) => match PyFloat(s) case Some(x) => Ok(x) case None => Raised("ValueError")
  }

  /**
   * `int(v)`: an int as it is, a bool as 0 or 1, a float truncated toward
   * zero, text as optionally signed decimal digits between whitespace; a
   * TypeError for None and a ValueError for other text.
   */
  function PyIntOf(v: Scalar): (r: Result<int>)
    ensures v.Int? ==> r == Ok(v.i)
    ensures v.Null? <==> r == Raised("TypeError")
  {
    match v
    case Null => Raised("TypeError")
    case Bool(b) => Ok(if b then 1 else 0)
    case Int(i) => Ok(i)
    case Float(x) => Ok(if x >= 0.0 then x.Floor else -((-x).Floor))
    case Str(s) =>
      match ParseInt(Strip(s))
      case Some(n) => Ok(n)
      case None => Raised("ValueError")
  }

  /** `int(str(k)) == k`: the text of an integer reads back as that integer. */
  lemma {:induction false} IntTextReadsBack(k: int)
    ensures PyIntOf(Str(IntToString(k))) == Ok(k)
  {
    var s := IntToString(k);
    IntTextParses(k);
    assert !IsSpace(s[0]) && !IsSpace(s[|s| - 1]);
    StripUnchanged(s);
  }

  /** `v.strip()`: only text has the method. */
  function StrippedText(v: Scalar): Result<string> {
    match v
    case Str(s) => Ok(Strip(s))
    case _ => Raised("AttributeError")
  }

  /** `(v or "").strip()`: the stripped text of a string, "" for any falsy value. */
  lemma StrippedOrEmpty(v: Scalar)
    ensures !Truthy(v) ==> StrippedText(Or(v, Str(""))) == Ok("")
    ensures v.Str? ==> StrippedText(Or(v, Str(""))) == Ok(Strip(v.s))
    ensures StrippedText(Or(v, Str(""))).Raised? <==> Truthy(v) && !v.Str?
  {
  }

  /** `d.get(key)`: None when the key is absent. */
  function Lookup(d: Data, key: string): Scalar {
    match Schema.Get(d, key)
    case Some(v) => v
    case None => Null
  }

  /** `d.get(key, default)`. */
  function LookupOr(d: Data, key: string, default: Scalar): Scalar {
    match Schema.Get(d, key)
    case Some(v) => v
    case None => default
  }

  /** `d[key].lower()`: a KeyError without the key, an AttributeError for a value that is not text. */
  function SubscriptLower(d: Data, key: string): (r: Result<string>)
    ensures r.Ok? <==> Lookup(d, key).Str?
    ensures r.Ok? ==> r.value == Lower(Lookup(d, key).s)
    ensures r == Raised("KeyError") <==> Schema.Get(d, key).None?
  {
    match Schema.Get(d, key)
    case None => Raised("KeyError")
    case Some(v) => if v.Str? then Ok(Lower(v.s)) else Raised("AttributeError")
  }

  /** `d[key] = v`: replaces the value of an existing key in place, or appends the key. */
  function Put(d: Data, key: string, v: Scalar): (r: Data)
    ensures Schema.Get(r, key) == Some(v)
    ensures forall k :: k != key ==> Schema.Get(r, k) == Schema.Get(d, k)
    ensures Schema.Keys(r) == if Schema.Get(d, key).Some? then Schema.Keys(d) else Schema.Keys(d) + [key]
  {
    if d == [] then
      PutFirst([], key, v);
      [(key, v)]
    else if d[0].0 == key then
      PutFirst(d, key, v);
      [(key, v)] + d[1..]
    else
      var rest := Put(d[1..], key, v);
      PutBehind(d, rest, key, v);
      [d[0]] + rest
  }

  /** The first entry, or a new one in an empty table, takes the value. */
  lemma PutFirst(d: Data, key: string, v: Scalar)
    requires d == [] || d[0].0 == key
    ensures var r := if d == [] then [(key, v)] else [(key, v)] + d[1..];
      Schema.Get(r, key) == Some(v) &&
      (forall k :: k != key ==> Schema.Get(r, k) == Schema.Get(d, k)) &&
      Schema.Keys(r) == if Schema.Get(d, key).Some? then Schema.Keys(d) else Schema.Keys(d) + [key]
  {
    if d != [] {
      var r := [(key, v)] + d[1..];
      GetCons((key, v), d[1..]);
      GetCons(d[0], d[1..]);
      assert d == [d[0]] + d[1..];
      assert Schema.Keys(r) == Schema.Keys(d);
    }
  }

  /** An entry in front of the updated rest of the table stays in front. */
  lemma PutBehind(d: Data, rest: Data, key: string, v: Scalar)
    requires d != [] && d[0].0 != key
    requires Schema.Get(rest, key) == Some(v)
    requires forall k :: k != key ==> Schema.Get(rest, k) == Schema.Get(d[1..], k)
    requires Schema.Keys(rest) == if Schema.Get(d[1..], key).Some? then Schema.Keys(d[1..]) else Schema.Keys(d[1..]) + [key]
    ensures var r := [d[0]] + rest;
      Schema.Get(r, key) == Some(v) &&
      (forall k :: k != key ==> Schema.Get(r, k) == Schema.Get(d, k)) &&
      Schema.Keys(r) == if Schema.Get(d, key).Some? then Schema.Keys(d) else Schema.Keys(d) + [key]
  {
    assert d == [d[0]] + d[1..];
    GetBehind(d[0], d[1..], rest, key, v);
    KeysBehind(d[0], d[1..], rest, key, Schema.Get(d[1..], key).Some?);
  }

  /** Lookups in the table with its first entry kept in front. */
  lemma GetBehind(h: (string, Scalar), t: Data, rest: Data, key: string, v: Scalar)
    requires h.0 != key
    requires Schema.Get(rest, key) == Some(v)
    requires forall k :: k != key ==> Schema.Get(rest, k) == Schema.Get(t, k)
    ensures Schema.Get([h] + rest, key) == Some(v)
    ensures Schema.Get([h] + t, key) == Schema.Get(t, key)
    ensures forall k :: k != key ==> Schema.Get([h] + rest, k) == Schema.Get([h] + t, k)
  {
    GetCons(h, t);
    GetCons(h, rest);
  }

  /** The key list of the table with its first entry kept in front. */
  lemma KeysBehind(h: (string, Scalar), t: Data, rest: Data, key: string, had: bool)
    requires Schema.Keys(rest) == if had then Schema.Keys(t) else Schema.Keys(t) + [key]
    ensures Schema.Keys([h] + rest) == if had then Schema.Keys([h] + t) else Schema.Keys([h] + t) + [key]
  {
    KeysCons(h, rest);
    KeysCons(h, t);
    var ks := Schema.Keys(t);
    assert [h.0] + (ks + [key]) == [h.0] + ks + [key];
  }

  /** The keys of a table with one more entry in front. */
  lemma KeysCons(h: (string, Scalar), t: Data)
    ensures Schema.Keys([h] + t) == [h.0] + Schema.Keys(t)
  {
  }

  /** Looking a key up in a table with one more entry in front. */
  lemma GetCons(h: (string, Scalar), t: Data)
    ensures forall k :: Schema.Get([h] + t, k) == if h.0 == k then Some(h.1) else Schema.Get(t, k)
  {
    forall k
      ensures Schema.Get([h] + t, k) == if h.0 == k then Some(h.1) else Schema.Get(t, k)
    {
      assert ([h] + t)[1..] == t;
    }
  }
}
