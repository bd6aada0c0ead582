/**
 * Parsed JSON values and the handful of Python operations the scripts apply
 * to them: truthiness, `==`, `dict.get`, `in`, iteration, `len`, and the
 * in-place dictionary updates `pop` and item assignment.
 *
 * Objects keep their entries in insertion order, as Python dicts do. A
 * document produced by a JSON parser has distinct keys in every object;
 * lookups below take the first entry with a key.
 */
module Json {
  import opened Util

  datatype Json =
    | JNull
    | JBool(b: bool)
    | JInt(i: int)
    | JNum(r: real)
    | JStr(s: string)
    | JArr(items: seq<Json>)
    | JObj(fields: seq<(string, Json)>)

  /** Python truthiness: None, False, zero, and empty strings, lists and dicts are falsy. */
  predicate Truthy(j: Json) {
    match j
    case JNull => false
    case JBool(b) => b
    case JInt(i) => i != 0
    case JNum(r) => r != 0.0
    case JStr(s) => |s| > 0
    case JArr(xs) => |xs| > 0
    case JObj(ps) => |ps| > 0
  }

  /** `isinstance(j, (int, float))`; a Python bool is an int. */
  predicate IsNumber(j: Json) {
    j.JBool? || j.JInt? || j.JNum?
  }

  /** The numeric value of a number (True is 1, False is 0). */
  function NumValue(j: Json): real
    requires IsNumber(j)
  {
    match j
    case JBool(b) => if b then 1.0 else 0.0
    case JInt(i) => i as real
    case JNum(r) => r
  }

  /** `j == n` for a number literal `n`. */
  predicate EqualsNumber(j: Json, n: real) {
    IsNumber(j) && NumValue(j) == n
  }

  /** The value of the first entry with key `key`. */
  function Lookup(fields: seq<(string, Json)>, key: string): Option<Json> {
    if |fields| == 0 then None
    else if fields[0].0 == key then Some(fields[0].1)
    else Lookup(fields[1..], key)
  }

  /** A lookup succeeds exactly for the keys of the entries, and finds one of the entries. */
  lemma {:induction false} LookupFinds(fields: seq<(string, Json)>, key: string)
    ensures Lookup(fields, key).Some? <==> key in Keys(fields)
    ensures Lookup(fields, key).Some? ==> (key, Lookup(fields, key).value) in fields
  {
    if |fields| > 0 && fields[0].0 != key {
      LookupFinds(fields[1..], key);
      KeysCons(fields[0], fields[1..]);
      assert [fields[0]] + fields[1..] == fields;
    }
  }

  function Keys(fields: seq<(string, Json)>): (ks: seq<string>)
    ensures |ks| == |fields|
    ensures forall i :: 0 <= i < |fields| ==> ks[i] == fields[i].0
  {
    if |fields| == 0 then [] else [fields[0].0] + Keys(fields[1..])
  }

  /** `key in j` for a dict `j`. */
  predicate HasKey(j: Json, key: string)
    requires j.JObj?
  {
    Lookup(j.fields, key).Some?
  }

  /** `key in c` does not raise: `c` is a dict, a list or a string. */
  predicate Searchable(c: Json) {
    c.JObj? || c.JArr? || c.JStr?
  }

  /** `key in c` is True: a key of a dict, an item of a list equal to the
      string `key`, or a substring of a string. */
  predicate In(c: Json, key: string) {
    match c
    case JObj(_) => HasKey(c, key)
    case JArr(xs) => exists i :: 0 <= i < |xs| && PyEq(xs[i], JStr(key))
    case JStr(s) => ContainsSubstring(s, key)
    case _ => false
  }

  /** Python's `key in c` on any parsed value; None when `in` raises
      TypeError (None, a boolean or a number). */
  function ContainsKey(c: Json, key: string): (r: Option<bool>)
    ensures r.Some? <==> Searchable(c)
    ensures r.Some? ==> (r.value <==> In(c, key))
    ensures c.JObj? ==> r == Some(HasKey(c, key))
  {
    if Searchable(c) then Some(In(c, key)) else None
  }

  /** `j.get(key, default)` for a dict `j`. */
  function Get(j: Json, key: string, default: Json): Json
    requires j.JObj?
  {
    Lookup(j.fields, key).GetOr(default)
  }

  /** `j.get(key)`: Python's None when the key is absent. */
  function Get0(j: Json, key: string): Json
    requires j.JObj?
  {
    Get(j, key, JNull)
  }

  /** The Python value a parsed JSON value stands for, as far as `==`
      can tell: booleans are the integers 0 and 1, integers and floats
      are compared by value, and a dict is a mapping from keys to values
      whatever the order of its entries. */
  datatype PyValue =
    | PNone
    | PNum(n: real)
    | PStr(s: string)
    | PList(items: seq<PyValue>)
    | PDict(entries: map<string, PyValue>)

  function ToPy(j: Json): PyValue
    decreases j, 1
  {
    match j
    case JNull => PNone
    case JBool(_) => PNum(NumValue(j))
    case JInt(_) => PNum(NumValue(j))
    case JNum(_) => PNum(NumValue(j))
    case JStr(s) => PStr(s)
    case JArr(_) => PList(ListOf(j, 0))
    case JObj(_) => PDict(DictOf(j, 0))
  }

  /** The items of the list `j` from index `n` on. */
  function ListOf(j: Json, n: nat): seq<PyValue>
    requires j.JArr? && n <= |j.items|
    decreases j, 0, |j.items| - n
  {
    if n == |j.items| then [] else [ToPy(j.items[n])] + ListOf(j, n + 1)
  }

  /** The mapping held by the entries of `j` from index `n` on; the first
      entry with a key gives its value, as `Lookup` does. */
  function DictOf(j: Json, n: nat): (m: map<string, PyValue>)
    requires j.JObj? && n <= |j.fields|
    decreases j, 0, |j.fields| - n
  {
    if n == |j.fields| then map[]
    else DictOf(j, n + 1)[j.fields[n].0 := ToPy(j.fields[n].1)]
  }

  /** Python's `a == b` on parsed JSON values: numbers compare by value
      (so 1 == 1.0 == True), lists element-wise, dicts key by key
      regardless of order. */
  predicate PyEq(a: Json, b: Json) {
    ToPy(a) == ToPy(b)
  }

  /** What `for x in j` yields: list items, dict keys, or one-character
      strings; None when Python raises TypeError (not iterable). */
  function Elements(j: Json): (r: Option<seq<Json>>)
    ensures j.JArr? ==> r == Some(j.items)
    ensures r.Some? ==> (|r.value| == 0 <==> !Truthy(j))
  {
    match j
    case JArr(xs) => Some(xs)
    case JObj(ps) => Some(seq(|ps|, i requires 0 <= i < |ps| => JStr(ps[i].0)))
    case JStr(s) => Some(seq(|s|, i requires 0 <= i < |s| => JStr([s[i]])))
    case _ => None
  }

  /** `len(j)`, or None when Python raises TypeError. */
  function Len(j: Json): (r: Option<nat>)
    ensures r.Some? <==> Elements(j).Some?
    ensures r.Some? ==> r.value == |Elements(j).value|
  {
    match j
    case JArr(xs) => Some(|xs|)
    case JObj(ps) => Some(|ps|)
    case JStr(s) => Some(|s|)
    case _ => None
  }

  /** A collection that can be iterated, every element a dict, as `for x in c: x.get(...)` needs. */
  predicate IteratesToDicts(c: Json) {
    Elements(c).Some? && forall x :: x in Elements(c).value ==> x.JObj?
  }

  /** The entries without key `key`: `d.pop(key, None)`. */
  function RemoveKey(fields: seq<(string, Json)>, key: string): (r: seq<(string, Json)>)
    ensures key !in Keys(r)
    ensures forall k :: k != key ==> Lookup(r, k) == Lookup(fields, k)
    ensures IsSubsequence(r, fields)
  {
    if |fields| == 0 then []
    else if fields[0].0 == key then
      var rest := RemoveKey(fields[1..], key);
      SubsequenceSkip(fields[0], rest, fields[1..]);
      assert [fields[0]] + fields[1..] == fields;
      rest
    else
      var rest := RemoveKey(fields[1..], key);
      SubsequenceCons(fields[0], rest, fields[1..]);
      assert [fields[0]] + fields[1..] == fields;
      [fields[0]] + rest
  }

  /** The entries after `d[key] = value`: an existing key keeps its place,
      a new key is appended. */
  function SetKey(fields: seq<(string, Json)>, key: string, value: Json): (r: seq<(string, Json)>)
    ensures Lookup(r, key) == Some(value)
    ensures forall k :: k != key ==> Lookup(r, k) == Lookup(fields, k)
  {
    if |fields| == 0 then [(key, value)]
    else if fields[0].0 == key then [(key, value)] + fields[1..]
    else
      var rest := SetKey(fields[1..], key, value);
      assert ([fields[0]] + rest)[1..] == rest;
      [fields[0]] + rest
  }

  /** Assignment keeps the key order: an existing key stays where it was, a new one goes last. */
  lemma {:induction false} SetKeyKeepsOrder(fields: seq<(string, Json)>, key: string, value: Json)
    ensures Keys(SetKey(fields, key, value)) ==
            if key in Keys(fields) then Keys(fields) else Keys(fields) + [key]
  {
    if |fields| == 0 {
    } else {
      var tail := fields[1..];
      assert [fields[0]] + tail == fields;
      KeysCons(fields[0], tail);
      if fields[0].0 == key {
        KeysCons((key, value), tail);
      } else {
        var rest := SetKey(tail, key, value);
        assert SetKey(fields, key, value) == [fields[0]] + rest;
        SetKeyKeepsOrder(tail, key, value);
        KeysCons(fields[0], rest);
        assert key in Keys(fields) <==> key in Keys(tail);
        if key !in Keys(tail) {
          assert [fields[0].0] + (Keys(tail) + [key]) == ([fields[0].0] + Keys(tail)) + [key];
        }
      }
    }
  }

  lemma KeysCons(entry: (string, Json), fields: seq<(string, Json)>)
    ensures Keys([entry] + fields) == [entry.0] + Keys(fields)
  {
    assert ([entry] + fields)[1..] == fields;
  }

  /** A Python dict that a script updates in place. */
  class JsonDict {
    var fields: seq<(string, Json)>

    constructor (fields: seq<(string, Json)>)
      ensures this.fields == fields
    {
      this.fields := fields;
    }

    function Value(): Json
      reads this
    {
      JObj(fields)
    }

    /** `d.pop(key, None)`. */
    method Pop(key: string)
      modifies this
      ensures fields == RemoveKey(old(fields), key)
    {
      fields := RemoveKey(fields, key);
    }

    /** `d[key] = value`. */
    method Set(key: string, value: Json)
      modifies this
      ensures fields == SetKey(old(fields), key, value)
    {
      fields := SetKey(fields, key, value);
    }
  }
}
