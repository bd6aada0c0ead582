/**
 * Pre-render verification of a Lottie animation (scripts/verify_animation.py):
 * layer count, unique asset references, timing strategy, embedded versus
 * external assets, file size and basic animation properties. The script
 * prints a line per check and exits with status 0 whatever the verdicts,
 * unless a TypeError escapes `main`: from the duplicate report, from the
 * timing check, or from the suggestions, and then it exits with status 1.
 *
 * The checks read the already-parsed document; the file size is a number
 * of bytes given by the caller.
 */
module AnimationVerifier {
  import opened Util
  import opened Json

  /** `data.get('layers', [])`. */
  function LayersOf(data: Json): Json
    requires data.JObj?
  {
    Get(data, "layers", JArr([]))
  }

  /** `data.get('assets', [])`. */
  function AssetsOf(data: Json): Json
    requires data.JObj?
  {
    Get(data, "assets", JArr([]))
  }

  // ---------------------------------------------------------------------
  // check_layer_count
  // ---------------------------------------------------------------------

  /** `check_layer_count(data, expected)`; `expected` is the optional
      integer given with `--expect-layers`. */
  function CheckLayerCount(data: Json, expected: Option<int>): (ok: bool)
    requires data.JObj? && Len(LayersOf(data)).Some?
    ensures (expected.None? || expected.value == 0) ==> ok
    ensures expected.Some? && expected.value != 0 ==> (ok <==> |Elements(LayersOf(data)).value| == expected.value)
  {
    if expected.Some? && expected.value != 0 then Len(LayersOf(data)).value == expected.value
    else true
  }

  // ---------------------------------------------------------------------
  // check_unique_layer_ids
  // ---------------------------------------------------------------------

  /** `layer.get('refId')`. */
  function RefOf(layer: Json): Json
    requires layer.JObj?
  {
    Get0(layer, "refId")
  }

  predicate AllDicts(xs: seq<Json>) {
    forall i :: 0 <= i < |xs| ==> xs[i].JObj?
  }

  /** Python's `x in xs` on a list. */
  predicate PyIn(x: Json, xs: seq<Json>) {
    exists m :: 0 <= m < |xs| && PyEq(xs[m], x)
  }

  /** `layer.get('refId')` of every layer, in order. */
  function LayerRefs(layers: seq<Json>): (refs: seq<Json>)
    requires AllDicts(layers)
    ensures |refs| == |layers| && forall i :: 0 <= i < |layers| ==> refs[i] == RefOf(layers[i])
  {
    seq(|layers|, i requires 0 <= i < |layers| => RefOf(layers[i]))
  }

  /** References `i` and `j` are both truthy and equal. */
  predicate DuplicatePair(refs: seq<Json>, i: nat, j: nat)
    requires i < |refs| && j < |refs|
  {
    Truthy(refs[i]) && Truthy(refs[j]) && PyEq(refs[i], refs[j])
  }

  /** Two of the first `n` references are truthy and equal. */
  ghost predicate DuplicateRefUpTo(refs: seq<Json>, n: nat)
    requires n <= |refs|
  {
    exists i, j :: 0 <= i < j < n && DuplicatePair(refs, i, j)
  }

  /** The layer references pass the check: no truthy `refId` occurs twice. */
  ghost predicate UniqueRefs(data: Json)
    requires data.JObj? && IteratesToDicts(LayersOf(data))
  {
    var layers := Elements(LayersOf(data)).value;
    AllDictsOf(LayersOf(data));
    !DuplicateRefUpTo(LayerRefs(layers), |layers|)
  }

  lemma AllDictsOf(c: Json)
    requires IteratesToDicts(c)
    ensures AllDicts(Elements(c).value)
  {
    var xs := Elements(c).value;
    forall i | 0 <= i < |xs| ensures xs[i].JObj? {
      assert xs[i] in xs;
    }
  }

  /** `ref_ids` after the first `n` references: the truthy ones, in order. */
  function TruthyRefs(refs: seq<Json>, n: nat): seq<Json>
    requires n <= |refs|
  {
    if n == 0 then []
    else TruthyRefs(refs, n - 1) + (if Truthy(refs[n - 1]) then [refs[n - 1]] else [])
  }

  /** A reference is `in ref_ids` iff it equals an earlier truthy reference. */
  lemma {:induction false} TruthyRefsMembers(refs: seq<Json>, n: nat, x: Json)
    requires n <= |refs|
    ensures PyIn(x, TruthyRefs(refs, n)) <==>
            exists i :: 0 <= i < n && Truthy(refs[i]) && PyEq(refs[i], x)
  {
    if n > 0 {
      TruthyRefsMembers(refs, n - 1, x);
      var prev := TruthyRefs(refs, n - 1);
      var cur := TruthyRefs(refs, n);
      if PyIn(x, cur) {
        var m :| 0 <= m < |cur| && PyEq(cur[m], x);
        if m < |prev| {
          assert cur[m] == prev[m];
        }
      }
      if exists i :: 0 <= i < n && Truthy(refs[i]) && PyEq(refs[i], x) {
        var i :| 0 <= i < n && Truthy(refs[i]) && PyEq(refs[i], x);
        if i < n - 1 {
          var m :| 0 <= m < |prev| && PyEq(prev[m], x);
          assert cur[m] == prev[m];
        } else {
          assert cur[|prev|] == refs[i];
        }
      }
    }
  }

  /** Reference `n` adds a duplicate iff it is truthy and equals an earlier
      truthy one. */
  lemma DuplicateStep(refs: seq<Json>, n: nat)
    requires n < |refs|
    ensures DuplicateRefUpTo(refs, n + 1) <==>
            DuplicateRefUpTo(refs, n) || (Truthy(refs[n]) && PyIn(refs[n], TruthyRefs(refs, n)))
  {
    TruthyRefsMembers(refs, n, refs[n]);
    if DuplicateRefUpTo(refs, n + 1) && !DuplicateRefUpTo(refs, n) {
      var i, j :| 0 <= i < j < n + 1 && DuplicatePair(refs, i, j);
      assert j == n;
      assert 0 <= i < n && Truthy(refs[i]) && PyEq(refs[i], refs[n]);
    }
    if Truthy(refs[n]) && PyIn(refs[n], TruthyRefs(refs, n)) {
      var i :| 0 <= i < n && Truthy(refs[i]) && PyEq(refs[i], refs[n]);
      assert DuplicatePair(refs, i, n);
    }
    if DuplicateRefUpTo(refs, n) {
      var i, j :| 0 <= i < j < n && DuplicatePair(refs, i, j);
      assert DuplicatePair(refs, i, j);
    }
  }

  /** A value Python cannot hash: a list or a dict. */
  predicate Unhashable(x: Json) {
    x.JArr? || x.JObj?
  }

  predicate HasUnhashable(xs: seq<Json>) {
    exists k :: 0 <= k < |xs| && Unhashable(xs[k])
  }

  /** Among the first `n` references, one is a duplicate (truthy and equal
      to an earlier truthy one) that cannot be hashed. */
  ghost predicate UnhashableDuplicateUpTo(refs: seq<Json>, n: nat)
    requires n <= |refs|
  {
    exists i, j :: 0 <= i < j < n && DuplicatePair(refs, i, j) && Unhashable(refs[j])
  }

  /** The report of the check raises: `set(duplicates)` meets a list or a
      dict among the duplicated references. */
  ghost predicate DuplicateReportRaises(data: Json)
    requires data.JObj? && IteratesToDicts(LayersOf(data))
  {
    var layers := Elements(LayersOf(data)).value;
    AllDictsOf(LayersOf(data));
    UnhashableDuplicateUpTo(LayerRefs(layers), |layers|)
  }

  /** Reference `n` adds an unhashable duplicate iff it is an unhashable
      truthy value equal to an earlier truthy one. */
  lemma UnhashableDuplicateStep(refs: seq<Json>, n: nat)
    requires n < |refs|
    ensures UnhashableDuplicateUpTo(refs, n + 1) <==>
            UnhashableDuplicateUpTo(refs, n) ||
            (Truthy(refs[n]) && PyIn(refs[n], TruthyRefs(refs, n)) && Unhashable(refs[n]))
  {
    TruthyRefsMembers(refs, n, refs[n]);
    if UnhashableDuplicateUpTo(refs, n + 1) && !UnhashableDuplicateUpTo(refs, n) {
      var i, j :| 0 <= i < j < n + 1 && DuplicatePair(refs, i, j) && Unhashable(refs[j]);
      assert j == n;
      assert 0 <= i < n && Truthy(refs[i]) && PyEq(refs[i], refs[n]);
    }
    if Truthy(refs[n]) && PyIn(refs[n], TruthyRefs(refs, n)) && Unhashable(refs[n]) {
      var i :| 0 <= i < n && Truthy(refs[i]) && PyEq(refs[i], refs[n]);
      assert DuplicatePair(refs, i, n);
    }
    if UnhashableDuplicateUpTo(refs, n) {
      var i, j :| 0 <= i < j < n && DuplicatePair(refs, i, j) && Unhashable(refs[j]);
      assert DuplicatePair(refs, i, j);
    }
  }

  /** `check_unique_layer_ids(data)`: collects the truthy `refId`s and the
      ones already seen; passes iff nothing was seen twice. `raises` tells
      whether printing `set(duplicates)` raises TypeError, which only a
      failing check can. */
  method CheckUniqueLayerIds(data: Json) returns (ok: bool, raises: bool)
    requires data.JObj? && IteratesToDicts(LayersOf(data))
    ensures ok == UniqueRefs(data)
    ensures raises == DuplicateReportRaises(data)
    ensures raises ==> !ok
  {
    var layers := Elements(LayersOf(data)).value;
    AllDictsOf(LayersOf(data));
    ghost var refs := LayerRefs(layers);
    var refIds: seq<Json> := [];
    var duplicates: seq<Json> := [];
    for n := 0 to |layers|
      invariant refIds == TruthyRefs(refs, n)
      invariant duplicates == [] <==> !DuplicateRefUpTo(refs, n)
      invariant HasUnhashable(duplicates) <==> UnhashableDuplicateUpTo(refs, n)
    {
      DuplicateStep(refs, n);
      UnhashableDuplicateStep(refs, n);
      var refId := RefOf(layers[n]);
      assert refId == refs[n];
      assert TruthyRefs(refs, n + 1) == refIds + (if Truthy(refId) then [refId] else []);
      if Truthy(refId) {
        if PyIn(refId, refIds) {
          assert HasUnhashable(duplicates + [refId]) <==> HasUnhashable(duplicates) || Unhashable(refId) by {
            assert forall k :: 0 <= k < |duplicates| ==> (duplicates + [refId])[k] == duplicates[k];
            assert (duplicates + [refId])[|duplicates|] == refId;
          }
          duplicates := duplicates + [refId];
        }
        refIds := refIds + [refId];
      }
    }
    if duplicates != [] {
      ok := false;
      raises := HasUnhashable(duplicates);  // `set(duplicates)` hashes each one
    } else {
      ok, raises := true, false;
    }
  }

  // ---------------------------------------------------------------------
  // check_sequential_timing and check_timing_strategy
  // ---------------------------------------------------------------------

  /** A layer's start time: `layer.get('st', layer.get('ip', 0))`. */
  function StartTime(layer: Json): Json
    requires layer.JObj?
  {
    Get(layer, "st", Get(layer, "ip", JInt(0)))
  }

  /** The layers of a document whose start times the timing checks can compare. */
  predicate TimedLayers(data: Json) {
    data.JObj? && IteratesToDicts(LayersOf(data)) &&
    var layers := Elements(LayersOf(data)).value;
    forall i :: 0 <= i < |layers| ==> layers[i].JObj? && IsNumber(StartTime(layers[i]))
  }

  function StartTimes(data: Json): (ts: seq<Json>)
    requires TimedLayers(data)
    ensures |ts| == |Elements(LayersOf(data)).value|
    ensures forall i :: 0 <= i < |ts| ==> IsNumber(ts[i])
  {
    var layers := Elements(LayersOf(data)).value;
    seq(|layers|, i requires 0 <= i < |layers| => StartTime(layers[i]))
  }

  predicate Numbers(ts: seq<Json>) {
    forall i :: 0 <= i < |ts| ==> IsNumber(ts[i])
  }

  /** `len(set(ts)) == 1` on numbers: non-empty, all of one value. */
  predicate AllSame(ts: seq<Json>)
    requires Numbers(ts)
  {
    |ts| > 0 && forall i :: 0 <= i < |ts| ==> NumValue(ts[i]) == NumValue(ts[0])
  }

  /** Each start time is below the next one. */
  predicate ConsecutiveIncreasing(ts: seq<Json>)
    requires Numbers(ts)
  {
    forall i :: 0 <= i < |ts| - 1 ==> NumValue(ts[i]) < NumValue(ts[i + 1])
  }

  /** Every earlier start time is below every later one. */
  predicate StrictlyIncreasing(ts: seq<Json>)
    requires Numbers(ts)
  {
    forall i, j :: 0 <= i < j < |ts| ==> NumValue(ts[i]) < NumValue(ts[j])
  }

  /** The two results of `check_sequential_timing`: `(False, first)` when
      all layers start together, `(is_staggered, start_times)` otherwise. */
  datatype Timing = Simultaneous(first: Json) | Pattern(staggered: bool, starts: seq<Json>)

  function CheckSequentialTiming(data: Json): Timing
    requires TimedLayers(data)
  {
    var ts := StartTimes(data);
    if AllSame(ts) then Simultaneous(ts[0]) else Pattern(ConsecutiveIncreasing(ts), ts)
  }

  /** Comparing neighbours is enough: start times increase step by step iff
      they increase strictly overall. */
  lemma {:induction false} ConsecutiveIffStrict(ts: seq<Json>)
    requires Numbers(ts)
    ensures ConsecutiveIncreasing(ts) <==> StrictlyIncreasing(ts)
  {
    if |ts| > 1 && ConsecutiveIncreasing(ts) {
      var tail := ts[1..];
      assert Numbers(tail) && ConsecutiveIncreasing(tail) by {
        forall i | 0 <= i < |tail| - 1 ensures NumValue(tail[i]) < NumValue(tail[i + 1]) {
          assert tail[i] == ts[i + 1] && tail[i + 1] == ts[i + 2];
        }
      }
      ConsecutiveIffStrict(tail);
      forall i, j | 0 <= i < j < |ts| ensures NumValue(ts[i]) < NumValue(ts[j]) {
        if i > 0 {
          assert ts[i] == tail[i - 1] && ts[j] == tail[j - 1];
        } else if j > 1 {
          assert ts[1] == tail[0] && ts[j] == tail[j - 1];
        }
      }
    }
  }

  /** The timing check's verdicts: an empty layer list is staggered, a
      simultaneous start is reported with the first start time, and
      otherwise the layers are staggered iff their start times increase strictly. */
  lemma SequentialTimingVerdicts(data: Json)
    requires TimedLayers(data)
    ensures var ts := StartTimes(data);
            match CheckSequentialTiming(data)
            case Simultaneous(first) =>
              |ts| > 0 && first == ts[0] && forall i :: 0 <= i < |ts| ==> NumValue(ts[i]) == NumValue(first)
            case Pattern(staggered, starts) =>
              starts == ts && (staggered <==> StrictlyIncreasing(ts)) && (|ts| == 0 ==> staggered)
  {
    ConsecutiveIffStrict(StartTimes(data));
  }

  /** `check_timing_strategy(data, expect_sequential)` as written, None
      where it raises: on a simultaneous start the first start time, a
      number, is passed to `set()`, which raises TypeError when sequential
      timing is expected. */
  function CheckTimingStrategyAsWritten(data: Json, expectSequential: bool): Option<bool>
    requires TimedLayers(data)
  {
    match CheckSequentialTiming(data)
    case Simultaneous(first) =>
      if expectSequential then None else Some(true)
    case Pattern(staggered, ts) =>
      if expectSequential && !staggered then Some(!AllSame(ts)) else Some(true)
  }

  /** As written, the check never reports a simultaneous start: it raises
      exactly when sequential timing is expected and all layers start
      together, returns True otherwise, and so agrees with the corrected
      check whenever it returns. */
  lemma TimingStrategyAsWrittenRaises(data: Json, expectSequential: bool)
    requires TimedLayers(data)
    ensures CheckTimingStrategyAsWritten(data, expectSequential) != Some(false)
    ensures CheckTimingStrategyAsWritten(data, expectSequential).None? <==>
              expectSequential && AllSame(StartTimes(data))
    ensures CheckTimingStrategyAsWritten(data, expectSequential).Some? ==>
              CheckTimingStrategy(data, expectSequential) == CheckTimingStrategyAsWritten(data, expectSequential).value
  {
  }

  /** One layer at start frame 0, with sequential timing expected, makes the
      check as written raise. */
  lemma OneLayerTimingRaises()
    ensures var one := JObj([("layers", JArr([JObj([])]))]);
            TimedLayers(one) && CheckTimingStrategyAsWritten(one, true).None?
  {
    var one := JObj([("layers", JArr([JObj([])]))]);
    assert LayersOf(one) == JArr([JObj([])]);
    assert StartTimes(one) == [JInt(0)];
  }

  /** `check_timing_strategy` as intended: a simultaneous start fails the
      check when sequential timing is expected. */
  function CheckTimingStrategy(data: Json, expectSequential: bool): bool
    requires TimedLayers(data)
  {
    match CheckSequentialTiming(data)
    case Simultaneous(_) => !expectSequential
    case Pattern(staggered, ts) =>
      if expectSequential && !staggered then !AllSame(ts) else true
  }

  /** The timing check fails only when sequential timing is expected and all
      layers share one start time. */
  lemma TimingStrategyFailsIffSimultaneous(data: Json, expectSequential: bool)
    requires TimedLayers(data)
    ensures !CheckTimingStrategy(data, expectSequential) <==> expectSequential && AllSame(StartTimes(data))
  {
  }

  // ---------------------------------------------------------------------
  // check_asset_references
  // ---------------------------------------------------------------------

  /** An asset whose `p`, when present, is a string (`.startswith` needs one). */
  predicate PathIsString(asset: Json) {
    asset.JObj? && (!HasKey(asset, "p") || Get0(asset, "p").JStr?)
  }

  /** `asset.get('e', 0) == 1 or asset.get('p', '').startswith('data:')`. */
  predicate IsEmbedded(asset: Json)
    requires PathIsString(asset)
  {
    EqualsNumber(Get(asset, "e", JInt(0)), 1.0) || StartsWith(Get(asset, "p", JStr("")).s, "data:")
  }

  /** The assets the check can walk: none, or dicts with string paths. */
  predicate CheckableAssets(data: Json) {
    data.JObj? &&
    (Truthy(AssetsOf(data)) ==>
       Elements(AssetsOf(data)).Some? &&
       forall a :: a in Elements(AssetsOf(data)).value ==> PathIsString(a))
  }

  function EmbeddedCount(assets: seq<Json>): (n: nat)
    requires forall a :: a in assets ==> PathIsString(a)
    ensures n <= |assets|
  {
    if |assets| == 0 then 0
    else EmbeddedCount(assets[..|assets| - 1]) + (if IsEmbedded(assets[|assets| - 1]) then 1 else 0)
  }

  /** No embedded asset is counted iff no asset is embedded. */
  lemma {:induction false} EmbeddedCountZero(assets: seq<Json>)
    requires forall a :: a in assets ==> PathIsString(a)
    ensures EmbeddedCount(assets) == 0 <==> forall i :: 0 <= i < |assets| ==> !IsEmbedded(assets[i])
  {
    if |assets| > 0 {
      var init := assets[..|assets| - 1];
      EmbeddedCountZero(init);
      assert forall i :: 0 <= i < |init| ==> init[i] == assets[i];
    }
  }

  /** The assets pass the check: there are none, or none is embedded. */
  ghost predicate NoEmbeddedAssets(data: Json)
    requires CheckableAssets(data)
  {
    !Truthy(AssetsOf(data)) ||
    var assets := Elements(AssetsOf(data)).value;
    forall i :: 0 <= i < |assets| ==> assets[i] in assets && !IsEmbedded(assets[i])
  }

  /** `check_asset_references(data)`: counts embedded and external assets
      (the two counts it prints) and fails iff some asset is embedded. */
  method CheckAssetReferences(data: Json) returns (ok: bool, external: nat, embedded: nat)
    requires CheckableAssets(data)
    ensures ok == NoEmbeddedAssets(data)
    ensures !Truthy(AssetsOf(data)) ==> external == 0 && embedded == 0
    ensures Truthy(AssetsOf(data)) ==>
              var assets := Elements(AssetsOf(data)).value;
              embedded == EmbeddedCount(assets) && external + embedded == |assets|
  {
    if !Truthy(AssetsOf(data)) {
      return true, 0, 0;
    }
    var assets := Elements(AssetsOf(data)).value;
    assert forall a :: a in assets ==> PathIsString(a);
    external, embedded := 0, 0;
    for i := 0 to |assets|
      invariant embedded == EmbeddedCount(assets[..i]) && external + embedded == i
    {
      assert assets[..i + 1][..i] == assets[..i];
      if IsEmbedded(assets[i]) {
        embedded := embedded + 1;
      } else {
        external := external + 1;
      }
    }
    assert assets[..|assets|] == assets;
    EmbeddedCountZero(assets);
    if external > 0 && embedded == 0 {
      ok := true;
    } else if embedded > 0 {
      ok := false;
    } else {
      ok := true;
    }
  }

  // ---------------------------------------------------------------------
  // check_file_size
  // ---------------------------------------------------------------------

  function SizeKb(bytes: nat): real {
    bytes as real / 1024.0
  }

  /** `check_file_size(path, max_size_kb)` for a file of `bytes` bytes. */
  function CheckFileSize(bytes: nat, maxSizeKb: Option<real>): bool {
    var kb := SizeKb(bytes);
    if maxSizeKb.Some? && maxSizeKb.value != 0.0 then kb <= maxSizeKb.value
    else if kb < 100.0 then true
    else if kb < 300.0 then true
    else if kb < 500.0 then true
    else false
  }

  /** With a limit the file passes iff it is within the limit; without one,
      or with the falsy limit 0, it passes iff it is under 500 KB, that is
      under 512000 bytes. */
  lemma FileSizeThresholds(bytes: nat, maxSizeKb: Option<real>)
    ensures maxSizeKb.Some? && maxSizeKb.value != 0.0 ==>
              (CheckFileSize(bytes, maxSizeKb) <==> bytes as real <= 1024.0 * maxSizeKb.value)
    ensures maxSizeKb.None? || maxSizeKb.value == 0.0 ==> (CheckFileSize(bytes, maxSizeKb) <==> bytes < 512000)
  {
  }

  /** A smaller file passes whenever a larger one does. */
  lemma FileSizeMonotone(small: nat, large: nat, maxSizeKb: Option<real>)
    requires small <= large
    ensures CheckFileSize(large, maxSizeKb) ==> CheckFileSize(small, maxSizeKb)
  {
    assert SizeKb(small) <= SizeKb(large);
  }

  // ---------------------------------------------------------------------
  // check_animation_properties
  // ---------------------------------------------------------------------

  /** `data.get(key, 0) == 0`: the side is the number 0 (or False), or absent.
      Any other value compares unequal without raising. */
  predicate ZeroSide(data: Json, key: string)
    requires data.JObj?
  {
    EqualsNumber(Get(data, key, JInt(0)), 0.0)
  }

  /** `data.get(key, default)` where the value, when present, is a number. */
  predicate NumberOrAbsent(data: Json, key: string)
    requires data.JObj?
  {
    !HasKey(data, key) || IsNumber(Get0(data, key))
  }

  /** The values the property check computes with: `fr` is compared with 0
      and 120 and divides, `op - ip` subtracts, so these must be numbers;
      `w` and `h` are only compared with `==`, so they may be anything. */
  predicate NumericProperties(data: Json) {
    data.JObj? &&
    NumberOrAbsent(data, "fr") && NumberOrAbsent(data, "ip") && NumberOrAbsent(data, "op")
  }

  function NumOr(data: Json, key: string, default: real): real
    requires data.JObj? && NumberOrAbsent(data, key)
  {
    if HasKey(data, key) then NumValue(Get0(data, key)) else default
  }

  /** `duration_frames / frame_rate if frame_rate > 0 else 0`. */
  function DurationSeconds(data: Json): real
    requires NumericProperties(data)
  {
    var fr := NumOr(data, "fr", 30.0);
    var frames := NumOr(data, "op", 0.0) - NumOr(data, "ip", 0.0);
    if fr > 0.0 then frames / fr else 0.0
  }

  datatype PropertyIssue = ZeroDimensions | ZeroDuration | HighFrameRate(fps: real)

  /** The `issues` list of `check_animation_properties`. */
  function PropertyIssues(data: Json): seq<PropertyIssue>
    requires NumericProperties(data)
  {
    var fr := NumOr(data, "fr", 30.0);
    (if ZeroSide(data, "w") || ZeroSide(data, "h") then [ZeroDimensions] else []) +
    (if DurationSeconds(data) == 0.0 then [ZeroDuration] else []) +
    (if fr > 120.0 then [HighFrameRate(fr)] else [])
  }

  function CheckAnimationProperties(data: Json): bool
    requires NumericProperties(data)
  {
    PropertyIssues(data) == []
  }

  /** The properties fail iff a side is 0, the duration is 0 (no frame
      rate above 0, or `op == ip`), or the frame rate is above 120. */
  lemma AnimationPropertiesFailIff(data: Json)
    requires NumericProperties(data)
    ensures var fr := NumOr(data, "fr", 30.0);
            !CheckAnimationProperties(data) <==>
              ZeroSide(data, "w") || ZeroSide(data, "h") || fr <= 0.0 || NumOr(data, "op", 0.0) == NumOr(data, "ip", 0.0) || fr > 120.0
  {
    var fr := NumOr(data, "fr", 30.0);
    var frames := NumOr(data, "op", 0.0) - NumOr(data, "ip", 0.0);
    if fr > 0.0 {
      QuotientZero(frames, fr);
    }
    assert DurationSeconds(data) == 0.0 <==> fr <= 0.0 || frames == 0.0;
  }

  lemma QuotientZero(x: real, y: real)
    requires y > 0.0
    ensures x / y == 0.0 <==> x == 0.0
  {
    if x != 0.0 {
      assert (x / y) * y == x;
    }
  }

  // ---------------------------------------------------------------------
  // provide_suggestions
  // ---------------------------------------------------------------------

  /** `provide_suggestions` raises TypeError when a check failed and
      `assets` cannot be iterated: `any(... for asset in assets)` calls
      `iter()` on it. The layer part only hashes numeric start times. */
  predicate SuggestionsRaise(data: Json, allPassed: bool)
    requires data.JObj?
  {
    !allPassed && Elements(AssetsOf(data)).None?
  }

  /** With assets the asset check accepts, the suggestions raise iff a check
      failed and `assets` is None, False, 0 or 0.0: falsy, so the asset check
      passes over it, yet not iterable. */
  lemma SuggestionsRaiseIff(data: Json, allPassed: bool)
    requires CheckableAssets(data)
    ensures SuggestionsRaise(data, allPassed) <==>
              !allPassed &&
              (AssetsOf(data) == JNull || AssetsOf(data) == JBool(false) ||
               AssetsOf(data) == JInt(0) || AssetsOf(data) == JNum(0.0))
  {
  }

  /** `{"assets": null}`: every check runs, the properties fail (no `w`),
      and the suggestions then iterate None. */
  lemma NullAssetsRaise()
    ensures var data := JObj([("assets", JNull)]);
            Checkable(data) && !CheckAnimationProperties(data) && SuggestionsRaise(data, false)
  {
    var data := JObj([("assets", JNull)]);
    assert AssetsOf(data) == JNull;
    assert LayersOf(data) == JArr([]);
    assert ZeroSide(data, "w");
  }

  /** Two layers whose `refId` is the list `[1]`: the check fails, and its
      report raises on `set(duplicates)`. */
  lemma ListRefDuplicateRaises()
    ensures var layer := JObj([("refId", JArr([JInt(1)]))]);
            var data := JObj([("layers", JArr([layer, layer]))]);
            Checkable(data) && !UniqueRefs(data) && DuplicateReportRaises(data)
  {
    var layer := JObj([("refId", JArr([JInt(1)]))]);
    var layers := [layer, layer];
    var data := JObj([("layers", JArr(layers))]);
    assert Elements(LayersOf(data)) == Some(layers);
    assert StartTime(layer) == JInt(0);
    assert TimedLayers(data);
    forall k | k != "layers"
      ensures Lookup(data.fields, k) == None
    {
      LookupFinds(data.fields, k);
      assert Keys(data.fields) == ["layers"];
    }
    assert "layers" != "assets" by { assert "layers"[0] != "assets"[0]; }
    assert AssetsOf(data) == JArr([]);
    assert NumericProperties(data);
    var refs := LayerRefs(layers);
    assert refs[0] == JArr([JInt(1)]) && refs[1] == JArr([JInt(1)]);
    assert DuplicatePair(refs, 0, 1);
    assert UnhashableDuplicateUpTo(refs, 2);
  }

  // ---------------------------------------------------------------------
  // main
  // ---------------------------------------------------------------------

  /** The command-line expectations: `--expect-layers`, `--expect-sequential`, `--max-size`. */
  datatype Expectations = Expectations(layers: Option<int>, sequential: bool, maxSizeKb: Option<real>)

  /** How the script as written ends: normally, or with the first TypeError
      that escapes `main`. */
  datatype Outcome = Completed | DuplicateReportRaised | TimingCheckRaised | SuggestionsRaised

  /** A document every check can examine. */
  predicate Checkable(data: Json) {
    TimedLayers(data) && CheckableAssets(data) && NumericProperties(data)
  }

  /** The six checks of `main`, in order, the timing verdict from the
      corrected check; and whether the duplicate report raises. */
  method RunChecks(data: Json, bytes: nat, wanted: Expectations)
    returns (checksPassed: seq<bool>, duplicateReportRaises: bool)
    requires Checkable(data)
    ensures checksPassed == [CheckLayerCount(data, wanted.layers), UniqueRefs(data),
                             CheckTimingStrategy(data, wanted.sequential), NoEmbeddedAssets(data),
                             CheckFileSize(bytes, wanted.maxSizeKb), CheckAnimationProperties(data)]
    ensures duplicateReportRaises == DuplicateReportRaises(data)
  {
    var layerCount := CheckLayerCount(data, wanted.layers);
    var unique;
    unique, duplicateReportRaises := CheckUniqueLayerIds(data);
    var timing := CheckTimingStrategy(data, wanted.sequential);
    var assetsOk, _, _ := CheckAssetReferences(data);
    var size := CheckFileSize(bytes, wanted.maxSizeKb);
    var properties := CheckAnimationProperties(data);
    checksPassed := [layerCount, unique, timing, assetsOk, size, properties];
  }

  /** `main`: the six verdicts and whether all passed; and, for the script
      as written, how it ends and its exit status: 1 when a TypeError
      escapes, otherwise 0 whatever the verdicts. */
  method VerifyAnimation(data: Json, bytes: nat, wanted: Expectations)
    returns (checksPassed: seq<bool>, allPassed: bool, outcome: Outcome, exitCode: int)
    requires Checkable(data)
    ensures checksPassed == [CheckLayerCount(data, wanted.layers), UniqueRefs(data),
                             CheckTimingStrategy(data, wanted.sequential), NoEmbeddedAssets(data),
                             CheckFileSize(bytes, wanted.maxSizeKb), CheckAnimationProperties(data)]
    ensures allPassed <==> forall i :: 0 <= i < |checksPassed| ==> checksPassed[i]
    ensures outcome == DuplicateReportRaised <==> DuplicateReportRaises(data)
    ensures outcome == TimingCheckRaised <==>
              !DuplicateReportRaises(data) && wanted.sequential && AllSame(StartTimes(data))
    ensures outcome == SuggestionsRaised <==>
              !DuplicateReportRaises(data) && !(wanted.sequential && AllSame(StartTimes(data))) &&
              SuggestionsRaise(data, allPassed)
    ensures outcome == Completed ==> CheckTimingStrategyAsWritten(data, wanted.sequential) == Some(checksPassed[2])
    ensures exitCode == (if outcome == Completed then 0 else 1)
  {
    var duplicateReportRaises;
    checksPassed, duplicateReportRaises := RunChecks(data, bytes, wanted);
    allPassed := forall i :: 0 <= i < |checksPassed| ==> checksPassed[i];
    TimingStrategyAsWrittenRaises(data, wanted.sequential);
    if duplicateReportRaises {
      outcome := DuplicateReportRaised;
    } else if CheckTimingStrategyAsWritten(data, wanted.sequential).None? {
      outcome := TimingCheckRaised;
    } else if !allPassed && Elements(AssetsOf(data)).None? {
      outcome := SuggestionsRaised;
    } else {
      outcome := Completed;
    }
    if outcome != Completed {
      exitCode := 1;  // the TypeError escapes `main`
    } else if allPassed {
      exitCode := 0;
    } else {
      exitCode := 0;  // warnings only: the script does not fail
    }
  }
}
