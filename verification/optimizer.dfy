/**
 * JSON tree clean-up transforms of the Lottie optimizer
 * (scripts/optimize_lottie.py): metadata-key removal, rounding of float
 * leaves, and removal of empty values.
 *
 * Python's `round(x, decimal_places)` is kept abstract: the model takes the
 * rounding of one float as a parameter `round` and proves only what does not
 * depend on it.
 */
module Optimizer {
  import opened Util
  import opened Json

  // ---------------------------------------------------------------------
  // _round_values
  // ---------------------------------------------------------------------

  /** `_round_values(obj, decimal_places)`, with `round` standing for
      `lambda x: round(x, decimal_places)`. Only floats are rounded. */
  function RoundValues(j: Json, round: real -> real): Json
    decreases j
  {
    match j
    case JObj(ps) => JObj(seq(|ps|, i requires 0 <= i < |ps| => (ps[i].0, RoundValues(ps[i].1, round))))
    case JArr(xs) => JArr(seq(|xs|, i requires 0 <= i < |xs| => RoundValues(xs[i], round)))
    case JNum(x) => JNum(round(x))
    case _ => j
  }

  /** `a` and `b` have the same shape: the same keys in the same order, the
      same list lengths, and equal leaves except that a float may become
      another float. */
  predicate SameShape(a: Json, b: Json)
    decreases a
  {
    match a
    case JObj(ps) =>
      b.JObj? && Keys(ps) == Keys(b.fields) &&
      forall i :: 0 <= i < |ps| ==> SameShape(ps[i].1, b.fields[i].1)
    case JArr(xs) =>
      b.JArr? && |xs| == |b.items| &&
      forall i :: 0 <= i < |xs| ==> SameShape(xs[i], b.items[i])
    case JNum(_) => b.JNum?
    case _ => b == a
  }

  /** Rounding preserves the shape of the document. */
  lemma {:induction false} RoundValuesSameShape(j: Json, round: real -> real)
    ensures SameShape(j, RoundValues(j, round))
    decreases j
  {
    match j
    case JObj(ps) =>
      var r := RoundValues(j, round);
      forall i | 0 <= i < |ps| ensures SameShape(ps[i].1, r.fields[i].1) {
        RoundValuesSameShape(ps[i].1, round);
      }
      assert Keys(ps) == Keys(r.fields);
    case JArr(xs) =>
      forall i | 0 <= i < |xs| ensures SameShape(xs[i], RoundValues(j, round).items[i]) {
        RoundValuesSameShape(xs[i], round);
      }
    case _ =>
  }

  /** With a rounding that changes nothing, the document is unchanged. */
  lemma {:induction false} RoundValuesIdentity(j: Json, round: real -> real)
    requires forall x :: round(x) == x
    ensures RoundValues(j, round) == j
    decreases j
  {
    match j
    case JObj(ps) =>
      var r := RoundValues(j, round).fields;
      forall i | 0 <= i < |ps| ensures r[i] == ps[i] {
        RoundValuesIdentity(ps[i].1, round);
      }
      assert r == ps;
    case JArr(xs) =>
      var r := RoundValues(j, round).items;
      forall i | 0 <= i < |xs| ensures r[i] == xs[i] {
        RoundValuesIdentity(xs[i], round);
      }
      assert r == xs;
    case _ =>
  }

  /** Rounding twice to the same precision is rounding once. */
  lemma {:induction false} RoundValuesIdempotent(j: Json, round: real -> real)
    requires forall x :: round(round(x)) == round(x)
    ensures RoundValues(RoundValues(j, round), round) == RoundValues(j, round)
    decreases j
  {
    match j
    case JObj(ps) =>
      var once := RoundValues(j, round).fields;
      var twice := RoundValues(RoundValues(j, round), round).fields;
      forall i | 0 <= i < |ps| ensures twice[i] == once[i] {
        RoundValuesIdempotent(ps[i].1, round);
      }
      assert twice == once;
    case JArr(xs) =>
      var once := RoundValues(j, round).items;
      var twice := RoundValues(RoundValues(j, round), round).items;
      forall i | 0 <= i < |xs| ensures twice[i] == once[i] {
        RoundValuesIdempotent(xs[i], round);
      }
      assert twice == once;
    case _ =>
  }

  // ---------------------------------------------------------------------
  // _remove_empty
  // ---------------------------------------------------------------------

  /** An object value `_remove_empty` keeps: `v is not None and v != {} and v != []`.
      (The script's second test, `v is False or v == 0`, can only be reached
      by None, `{}` and `[]`, for which it is false, so it never keeps anything.) */
  predicate Kept(v: Json) {
    !v.JNull? && v != JObj([]) && v != JArr([])
  }

  /** The value of `_remove_empty(j)`. */
  function Cleaned(j: Json): Json
    decreases j, 1
  {
    match j
    case JObj(_) => JObj(CleanedEntries(j, 0))
    case JArr(xs) => JArr(CleanedItems(xs))
    case _ => j
  }

  /** The entries the dict branch builds from the entries of `j` at index
      `n` on: each value cleaned, the kept ones in order. */
  function CleanedEntries(j: Json, n: nat): seq<(string, Json)>
    requires j.JObj? && n <= |j.fields|
    decreases j, 0, |j.fields| - n
  {
    if n == |j.fields| then []
    else
      var v := Cleaned(j.fields[n].1);
      (if Kept(v) then [(j.fields[n].0, v)] else []) + CleanedEntries(j, n + 1)
  }

  /** `[_remove_empty(item) for item in xs if item is not None]`. */
  function CleanedItems(xs: seq<Json>): seq<Json>
    decreases xs
  {
    if |xs| == 0 then []
    else (if xs[0].JNull? then [] else [Cleaned(xs[0])]) + CleanedItems(xs[1..])
  }

  /** No object value anywhere is None, `{}` or `[]`, and no list item is None. */
  predicate IsClean(j: Json)
    decreases j
  {
    match j
    case JObj(ps) => forall i :: 0 <= i < |ps| ==> Kept(ps[i].1) && IsClean(ps[i].1)
    case JArr(xs) => forall i :: 0 <= i < |xs| ==> !xs[i].JNull? && IsClean(xs[i])
    case _ => true
  }

  /** The result of `_remove_empty` is clean. */
  lemma {:induction false} CleanedIsClean(j: Json)
    ensures IsClean(Cleaned(j))
    decreases j, 2
  {
    match j
    case JObj(_) => CleanedEntriesAreClean(j, 0);
    case JArr(xs) => CleanedItemsAreClean(xs);
    case _ =>
  }

  lemma {:induction false} CleanedEntriesAreClean(j: Json, n: nat)
    requires j.JObj? && n <= |j.fields|
    ensures forall i :: 0 <= i < |CleanedEntries(j, n)| ==>
              Kept(CleanedEntries(j, n)[i].1) && IsClean(CleanedEntries(j, n)[i].1)
    decreases j, 1, |j.fields| - n
  {
    if n < |j.fields| {
      CleanedIsClean(j.fields[n].1);
      CleanedEntriesAreClean(j, n + 1);
    }
  }

  lemma {:induction false} CleanedItemsAreClean(xs: seq<Json>)
    ensures forall i :: 0 <= i < |CleanedItems(xs)| ==>
              !CleanedItems(xs)[i].JNull? && IsClean(CleanedItems(xs)[i])
    decreases xs, 0
  {
    if |xs| > 0 {
      if !xs[0].JNull? {
        CleanedIsClean(xs[0]);
        assert !Cleaned(xs[0]).JNull?;
      }
      CleanedItemsAreClean(xs[1..]);
    }
  }

  /** A clean document is left as it is. */
  lemma {:induction false} CleanedOfClean(j: Json)
    requires IsClean(j)
    ensures Cleaned(j) == j
    decreases j, 2
  {
    match j
    case JObj(ps) =>
      CleanedEntriesOfClean(j, 0);
      assert ps[0..] == ps;
    case JArr(xs) => CleanedItemsOfClean(xs);
    case _ =>
  }

  lemma {:induction false} CleanedEntriesOfClean(j: Json, n: nat)
    requires j.JObj? && n <= |j.fields| && IsClean(j)
    ensures CleanedEntries(j, n) == j.fields[n..]
    decreases j, 1, |j.fields| - n
  {
    var ps := j.fields;
    if n < |ps| {
      CleanedOfClean(ps[n].1);
      CleanedEntriesOfClean(j, n + 1);
      assert ps[n..] == [ps[n]] + ps[n + 1..];
    }
  }

  lemma {:induction false} CleanedItemsOfClean(xs: seq<Json>)
    requires forall i :: 0 <= i < |xs| ==> !xs[i].JNull? && IsClean(xs[i])
    ensures CleanedItems(xs) == xs
    decreases xs, 0
  {
    if |xs| > 0 {
      CleanedOfClean(xs[0]);
      CleanedItemsOfClean(xs[1..]);
      assert [xs[0]] + xs[1..] == xs;
    }
  }

  /** `_remove_empty` is idempotent. */
  lemma CleanedIdempotent(j: Json)
    ensures Cleaned(Cleaned(j)) == Cleaned(j)
  {
    CleanedIsClean(j);
    CleanedOfClean(Cleaned(j));
  }

  /** The cleaned dict never introduces keys: its keys are a subsequence of
      the input's keys, in the same order. */
  lemma CleanedKeysSubsequence(j: Json)
    requires j.JObj?
    ensures IsSubsequence(Keys(Cleaned(j).fields), Keys(j.fields))
  {
    CleanedEntriesKeys(j, 0);
    assert j.fields[0..] == j.fields;
  }

  lemma {:induction false} CleanedEntriesKeys(j: Json, n: nat)
    requires j.JObj? && n <= |j.fields|
    ensures IsSubsequence(Keys(CleanedEntries(j, n)), Keys(j.fields[n..]))
    decreases |j.fields| - n
  {
    var ps := j.fields;
    if n == |ps| {
      EmptyIsSubsequence(Keys(ps[n..]));
    } else {
      var rest := CleanedEntries(j, n + 1);
      CleanedEntriesKeys(j, n + 1);
      KeysCons(ps[n], ps[n + 1..]);
      assert ps[n..] == [ps[n]] + ps[n + 1..];
      var v := Cleaned(ps[n].1);
      if Kept(v) {
        assert CleanedEntries(j, n) == [(ps[n].0, v)] + rest;
        KeysCons((ps[n].0, v), rest);
        SubsequenceCons(ps[n].0, Keys(rest), Keys(ps[n + 1..]));
      } else {
        assert CleanedEntries(j, n) == rest;
        SubsequenceSkip(ps[n].0, Keys(rest), Keys(ps[n + 1..]));
      }
    }
  }

  /** An entry is in the cleaned dict iff some entry of the input has its
      key and a value that cleans to it, and the cleaned value is kept. */
  lemma CleanedEntriesMembers(j: Json, k: string, v: Json)
    requires j.JObj?
    ensures (k, v) in Cleaned(j).fields <==>
            Kept(v) && exists i :: 0 <= i < |j.fields| && j.fields[i].0 == k && v == Cleaned(j.fields[i].1)
  {
    CleanedEntriesMembersFrom(j, 0, k, v);
  }

  lemma {:induction false} CleanedEntriesMembersFrom(j: Json, n: nat, k: string, v: Json)
    requires j.JObj? && n <= |j.fields|
    ensures (k, v) in CleanedEntries(j, n) <==>
            Kept(v) && exists i :: n <= i < |j.fields| && j.fields[i].0 == k && v == Cleaned(j.fields[i].1)
    decreases |j.fields| - n
  {
    var ps := j.fields;
    if n < |ps| {
      CleanedEntriesMembersFrom(j, n + 1, k, v);
      if exists i :: n <= i < |ps| && ps[i].0 == k && v == Cleaned(ps[i].1) {
        var i :| n <= i < |ps| && ps[i].0 == k && v == Cleaned(ps[i].1);
        if i > n {
          assert n + 1 <= i < |ps| && ps[i].0 == k && v == Cleaned(ps[i].1);
        }
      }
    }
  }

  /** The items of `ps` other than None, in order. */
  function NonNull(xs: seq<Json>): (r: seq<Json>)
    ensures forall x :: x in r <==> x in xs && !x.JNull?
    ensures IsSubsequence(r, xs)
  {
    if |xs| == 0 then []
    else
      var rest := NonNull(xs[1..]);
      assert [xs[0]] + xs[1..] == xs;
      if xs[0].JNull? then
        SubsequenceSkip(xs[0], rest, xs[1..]);
        rest
      else
        SubsequenceCons(xs[0], rest, xs[1..]);
        [xs[0]] + rest
  }

  /** A cleaned list holds exactly the non-None items, each cleaned, in
      order: empty containers inside a list are not dropped. */
  lemma {:induction false} CleanedItemsAreNonNull(xs: seq<Json>)
    ensures |CleanedItems(xs)| == |NonNull(xs)|
    ensures forall i :: 0 <= i < |NonNull(xs)| ==> CleanedItems(xs)[i] == Cleaned(NonNull(xs)[i])
  {
    if |xs| > 0 {
      CleanedItemsAreNonNull(xs[1..]);
    }
  }

  lemma Reassociate<T>(a: seq<T>, b: seq<T>, c: seq<T>)
    ensures a + (b + c) == (a + b) + c
  {
  }

  /** One more entry of the dict loop, kept: the entries so far grow by the
      entry with its cleaned value. */
  lemma CleanedEntriesKeep(j: Json, i: nat, done: seq<(string, Json)>)
    requires j.JObj? && i < |j.fields| && CleanedEntries(j, 0) == done + CleanedEntries(j, i)
    requires Kept(Cleaned(j.fields[i].1))
    ensures CleanedEntries(j, 0) == (done + [(j.fields[i].0, Cleaned(j.fields[i].1))]) + CleanedEntries(j, i + 1)
  {
    Reassociate(done, [(j.fields[i].0, Cleaned(j.fields[i].1))], CleanedEntries(j, i + 1));
  }

  /** One more entry of the dict loop, dropped: the entries so far stay. */
  lemma CleanedEntriesDrop(j: Json, i: nat, done: seq<(string, Json)>)
    requires j.JObj? && i < |j.fields| && CleanedEntries(j, 0) == done + CleanedEntries(j, i)
    requires !Kept(Cleaned(j.fields[i].1))
    ensures CleanedEntries(j, 0) == done + CleanedEntries(j, i + 1)
  {
    assert CleanedEntries(j, i) == CleanedEntries(j, i + 1);
  }

  /** One more item of the list loop, not None: the items so far grow by
      the item, cleaned. */
  lemma CleanedItemsKeep(xs: seq<Json>, i: nat, done: seq<Json>)
    requires i < |xs| && CleanedItems(xs) == done + CleanedItems(xs[i..]) && !xs[i].JNull?
    ensures CleanedItems(xs) == (done + [Cleaned(xs[i])]) + CleanedItems(xs[i + 1..])
  {
    CleanedItemsUnfold(xs, i);
    Reassociate(done, [Cleaned(xs[i])], CleanedItems(xs[i + 1..]));
  }

  /** One more item of the list loop, None: the items so far stay. */
  lemma CleanedItemsDrop(xs: seq<Json>, i: nat, done: seq<Json>)
    requires i < |xs| && CleanedItems(xs) == done + CleanedItems(xs[i..]) && xs[i].JNull?
    ensures CleanedItems(xs) == done + CleanedItems(xs[i + 1..])
  {
    CleanedItemsUnfold(xs, i);
    assert CleanedItems(xs[i..]) == CleanedItems(xs[i + 1..]);
  }

  lemma CleanedItemsUnfold(xs: seq<Json>, i: nat)
    requires i < |xs|
    ensures CleanedItems(xs[i..]) == (if xs[i].JNull? then [] else [Cleaned(xs[i])]) + CleanedItems(xs[i + 1..])
  {
    assert xs[i..][1..] == xs[i + 1..];
  }

  /** `_remove_empty(obj)`: a recursive walk over dicts and lists. */
  method RemoveEmpty(j: Json) returns (r: Json)
    ensures r == Cleaned(j)
    decreases j, 1
  {
    match j
    case JObj(_) =>
      r := RemoveEmptyEntries(j);
    case JArr(_) =>
      r := RemoveEmptyItems(j);
    case _ =>
      r := j;
  }

  /** The dict branch: fills the local `cleaned` dict in a loop. Keys of a
      dict are distinct, so each assignment `cleaned[k] = cleaned_v` adds a
      new last entry. */
  method RemoveEmptyEntries(j: Json) returns (r: Json)
    requires j.JObj?
    ensures r == Cleaned(j)
    decreases j, 0
  {
    var ps := j.fields;
    var cleaned: seq<(string, Json)> := [];
    for i := 0 to |ps|
      invariant CleanedEntries(j, 0) == cleaned + CleanedEntries(j, i)
    {
      var cleanedV := RemoveEmpty(ps[i].1);
      if Kept(cleanedV) {
        CleanedEntriesKeep(j, i, cleaned);
        cleaned := cleaned + [(ps[i].0, cleanedV)];
      } else {
        CleanedEntriesDrop(j, i, cleaned);
      }
    }
    assert cleaned + [] == cleaned;
    r := JObj(cleaned);
  }

  /** The list branch: `[_remove_empty(item) for item in obj if item is not None]`. */
  method RemoveEmptyItems(j: Json) returns (r: Json)
    requires j.JArr?
    ensures r == Cleaned(j)
    decreases j, 0
  {
    var xs := j.items;
    var items: seq<Json> := [];
    for i := 0 to |xs|
      invariant CleanedItems(xs) == items + CleanedItems(xs[i..])
    {
      if !xs[i].JNull? {
        CleanedItemsKeep(xs, i, items);
        var item := RemoveEmpty(xs[i]);
        items := items + [item];
      } else {
        CleanedItemsDrop(xs, i, items);
      }
    }
    assert xs[|xs|..] == [];
    r := JArr(items);
  }

  // ---------------------------------------------------------------------
  // Metadata removal and the order of the transforms
  // ---------------------------------------------------------------------

  const MetadataKeys: seq<string> := ["meta", "metadata", "description", "generator", "keywords"]

  /** The entries after `d.pop(key, None)` for each key of `keys` in turn:
      the popped keys are gone, the other entries stay, in their order. */
  function RemoveKeys(fields: seq<(string, Json)>, keys: seq<string>): (r: seq<(string, Json)>)
    ensures forall k :: k in keys ==> k !in Keys(r)
    ensures forall k :: k !in keys ==> Lookup(r, k) == Lookup(fields, k)
    ensures IsSubsequence(r, fields)
  {
    if |keys| == 0 then
      SubsequenceRefl(fields);
      fields
    else
      var init, last := keys[..|keys| - 1], keys[|keys| - 1];
      assert forall k :: k in keys <==> k in init || k == last;
      var prev := RemoveKeys(fields, init);
      var r := RemoveKey(prev, last);
      assert forall k :: k in init && k != last ==> k !in Keys(r) by {
        forall k | k in init && k != last ensures k !in Keys(r) {
          LookupFinds(prev, k);
          LookupFinds(r, k);
        }
      }
      SubsequenceTrans(r, prev, fields);
      r
  }

  /** The metadata loop: pops each metadata key from the document in place. */
  method StripMetadata(d: JsonDict)
    modifies d
    ensures d.fields == RemoveKeys(old(d.fields), MetadataKeys)
  {
    for i := 0 to |MetadataKeys|
      invariant d.fields == RemoveKeys(old(d.fields), MetadataKeys[..i])
    {
      assert MetadataKeys[..i + 1][..i] == MetadataKeys[..i];
      d.Pop(MetadataKeys[i]);
    }
    assert MetadataKeys[..|MetadataKeys|] == MetadataKeys;
  }

  /** The document `optimize_lottie` writes, or None when a step raises
      (popping a key from a document that is not a dict). */
  function Optimized(data: Json, round: real -> real, removeMetadata: bool): Option<Json> {
    if removeMetadata && !data.JObj? then None
    else
      var stripped := if removeMetadata then JObj(RemoveKeys(data.fields, MetadataKeys)) else data;
      Some(Cleaned(RoundValues(stripped, round)))
  }

  /** Lines 55-64 of `optimize_lottie`: metadata removal in place, then
      rounding, then removal of empty values. */
  method OptimizeDocument(data: Json, round: real -> real, removeMetadata: bool) returns (r: Option<Json>)
    ensures r == Optimized(data, round, removeMetadata)
  {
    var doc := data;
    if removeMetadata {
      if !data.JObj? {
        return None;
      }
      var d := new JsonDict(data.fields);
      StripMetadata(d);
      doc := d.Value();
    }
    doc := RoundValues(doc, round);
    var cleaned := RemoveEmpty(doc);
    r := Some(cleaned);
  }

  /** The optimized document is clean, and with metadata removal on it is a
      dict without any metadata key whose other entries come from the input. */
  lemma OptimizedProperties(data: Json, round: real -> real, removeMetadata: bool)
    requires Optimized(data, round, removeMetadata).Some?
    ensures IsClean(Optimized(data, round, removeMetadata).value)
    ensures removeMetadata ==>
              var out := Optimized(data, round, removeMetadata).value;
              out.JObj? &&
              (forall k :: k in MetadataKeys ==> k !in Keys(out.fields)) &&
              (forall k :: k in Keys(out.fields) ==> k in Keys(data.fields))
  {
    var stripped := if removeMetadata then JObj(RemoveKeys(data.fields, MetadataKeys)) else data;
    var rounded := RoundValues(stripped, round);
    CleanedIsClean(rounded);
    if removeMetadata {
      RoundValuesSameShape(stripped, round);
      var out := Cleaned(rounded).fields;
      forall k | k in Keys(out)
        ensures k in Keys(rounded.fields) && k !in MetadataKeys && k in Keys(data.fields)
      {
        var i :| 0 <= i < |out| && out[i].0 == k;
        CleanedEntriesMembers(rounded, k, out[i].1);
        var m :| 0 <= m < |rounded.fields| && rounded.fields[m].0 == k && out[i].1 == Cleaned(rounded.fields[m].1);
        var stripped' := RemoveKeys(data.fields, MetadataKeys);
        assert k in Keys(stripped');
        LookupFinds(stripped', k);
        LookupFinds(data.fields, k);
      }
    }
  }
}
