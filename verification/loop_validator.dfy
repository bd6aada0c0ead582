/**
 * Loop-continuity checker for Lottie animations (scripts/validate_loop.py).
 *
 * For every layer that has a transform (`ks`), the position, scale,
 * rotation and opacity channels are examined in that order. An animated
 * channel with at least two keyframes is compared first keyframe against
 * last keyframe: rotation modulo 360 degrees, the others within a
 * tolerance. Each mismatch becomes an issue of its layer; the animation is
 * a perfect loop iff no issue was recorded.
 *
 * Python exceptions come in two kinds here: the TypeError, AttributeError
 * and KeyError that the per-channel `except` clause catches (the channel is
 * then skipped silently), and every other exception (ValueError from
 * `float()` on a string, IndexError, or a TypeError raised outside the
 * `try`), which ends the script; the model reports those as `Crash`.
 */
module LoopValidator {
  import opened Util
  import opened Json

  /** The four transform channels, in the order the checker visits them. */
  datatype Channel = Position | Scale | Rotation | Opacity {
    /** The channel's key inside a layer's `ks` object. */
    function Key(): string {
      match this
      case Position => "p"
      case Scale => "s"
      case Rotation => "r"
      case Opacity => "o"
    }
  }

  const Channels: seq<Channel> := [Position, Scale, Rotation, Opacity]

  function ChannelIndex(c: Channel): (n: nat)
    ensures n < |Channels| && Channels[n] == c
  {
    match c
    case Position => 0
    case Scale => 1
    case Rotation => 2
    case Opacity => 3
  }

  /** The result of Python code that may raise: a value, an exception the
      channel's `except` clause catches, or one that escapes. */
  datatype Eval<T> = Ok(value: T) | Caught | Raised

  /** Python's `float(j)`. Containers and None raise TypeError (caught);
      a string raises ValueError (not caught). */
  function Float(j: Json): (r: Eval<real>)
    ensures IsNumber(j) <==> r.Ok?
    ensures r.Ok? ==> r.value == NumValue(j)
    ensures r.Raised? <==> j.JStr?
  {
    match j
    case JBool(_) => Ok(NumValue(j))
    case JInt(_) => Ok(NumValue(j))
    case JNum(_) => Ok(NumValue(j))
    case JStr(_) => Raised
    case _ => Caught
  }

  function Abs(x: real): (r: real)
    ensures r >= 0.0 && (r == x || r == -x)
  {
    if x < 0.0 then -x else x
  }

  /** Python's `x % 360` for a real `x` (floored modulo). */
  function Mod360(x: real): (r: real)
    ensures 0.0 <= r < 360.0
    ensures exists q: int {:trigger q as real} :: x == 360.0 * (q as real) + r
  {
    var q := (x / 360.0).Floor;
    var r := x - 360.0 * (q as real);
    assert x == 360.0 * (q as real) + r;
    r
  }

  /** A rotation value as `_rotation_matches` reads it: the first element
      of a list, 0 for an empty list, the value itself otherwise. */
  function Degrees(v: Json): Json {
    if v.JArr? then (if |v.items| > 0 then v.items[0] else JInt(0)) else v
  }

  /** `_rotation_matches(v1, v2, tolerance)`. */
  function RotationMatches(v1: Json, v2: Json, tolerance: real): Eval<bool> {
    match Float(Degrees(v1))
    case Caught => Caught
    case Raised => Raised
    case Ok(a) =>
      match Float(Degrees(v2))
      case Caught => Caught
      case Raised => Raised
      case Ok(b) =>
        var diff := Mod360(Abs(a - b));
        Ok(diff <= tolerance || diff >= 360.0 - tolerance)
  }

  /** `all(abs(float(v1) - float(v2)) <= tolerance for v1, v2 in zip(xs, ys))`,
      evaluated left to right and stopping at the first pair out of tolerance. */
  function AllWithin(xs: seq<Json>, ys: seq<Json>, tolerance: real): Eval<bool>
    requires |xs| == |ys|
    decreases |xs|
  {
    if |xs| == 0 then Ok(true)
    else
      match Float(xs[0])
      case Caught => Caught
      case Raised => Raised
      case Ok(a) =>
        match Float(ys[0])
        case Caught => Caught
        case Raised => Raised
        case Ok(b) =>
          if Abs(a - b) <= tolerance then AllWithin(xs[1..], ys[1..], tolerance) else Ok(false)
  }

  /** `_values_match(v1, v2, tolerance)`. */
  function ValuesMatch(v1: Json, v2: Json, tolerance: real): Eval<bool> {
    if v1.JArr? && v2.JArr? then
      if |v1.items| != |v2.items| then Ok(false)
      else AllWithin(v1.items, v2.items, tolerance)
    else if IsNumber(v1) && IsNumber(v2) then
      Ok(Abs(NumValue(v1) - NumValue(v2)) <= tolerance)
    else
      Ok(PyEq(v1, v2))
  }

  /** The value a keyframe stands for: `kf.get('s') or kf.get('e')` for a
      dict (None when both are missing), the keyframe itself otherwise. */
  function KeyframeValue(kf: Json): Json {
    if kf.JObj? then
      var s := Get0(kf, "s");
      if Truthy(s) then s else Get0(kf, "e")
    else kf
  }

  /** What the examination of one channel leads to. */
  datatype ChannelVerdict = Skipped | Matched | Mismatched(first: Json, last: Json) | Crashed

  /** The comparison of a channel's first and last values (the body of the `try`). */
  function CompareEnds(c: Channel, first: Json, last: Json, tolerance: real): ChannelVerdict {
    if first.JNull? || last.JNull? then Skipped
    else if c == Rotation then
      match RotationMatches(first, last, tolerance)
      case Ok(true) => Matched
      // Building the message indexes `first[0]` and `last[0]`: IndexError on an empty list.
      case Ok(false) =>
        if (first.JArr? && |first.items| == 0) || (last.JArr? && |last.items| == 0) then Crashed
        else Mismatched(first, last)
      case Caught => Skipped
      case Raised => Crashed
    else
      match ValuesMatch(first, last, tolerance)
      case Ok(true) => Matched
      case Ok(false) => Mismatched(first, last)
      case Caught => Skipped
      case Raised => Crashed
  }

  /** One iteration of the channel loop on a layer's `ks`. */
  function CheckChannel(ks: Json, c: Channel, tolerance: real): ChannelVerdict {
    match ContainsKey(ks, c.Key())
    case None => Crashed
    case Some(false) => Skipped
    case Some(true) =>
      if !ks.JObj? then Crashed  // `ks['p']` on a list or string raises TypeError
      else
        var prop := Get0(ks, c.Key());
        if !prop.JObj? || EqualsNumber(Get(prop, "a", JInt(0)), 0.0) then Skipped
        else if !HasKey(prop, "k") then Skipped
        else
          var keyframes := Get0(prop, "k");
          if !keyframes.JArr? || |keyframes.items| < 2 then Skipped
          else
            CompareEnds(c, KeyframeValue(keyframes.items[0]),
                        KeyframeValue(keyframes.items[|keyframes.items| - 1]), tolerance)
  }

  /** An issue of one layer (an entry of `layer_info['issues']`). */
  datatype ChannelIssue = ChannelIssue(channel: Channel, first: Json, last: Json)

  /** An entry of `info['layer_analysis']`. */
  datatype LayerInfo = LayerInfo(index: nat, name: Json, issues: seq<ChannelIssue>)

  /** An entry of `info['issues']`: a layer's issue prefixed with the layer's name. */
  datatype Issue = Issue(layerName: Json, issue: ChannelIssue)

  /** The result of `validate_loop` on a parsed document. */
  datatype LoopReport =
    | NoLayers
    | Crash
    | Report(isPerfectLoop: bool, issues: seq<Issue>, layerAnalysis: seq<LayerInfo>)

  /** `layer.get('nm', f'Layer {i}')`. */
  function LayerName(layer: Json, i: nat): Json
    requires layer.JObj?
  {
    Get(layer, "nm", JStr("Layer " + NatToString(i)))
  }

  datatype LayerVerdict = LayerCrashed | LayerDone(issues: seq<ChannelIssue>)

  /** The issues of the first `n` channels of `ks`, in channel order. */
  function ChannelIssuesUpTo(ks: Json, n: nat, tolerance: real): LayerVerdict
    requires n <= |Channels|
  {
    if n == 0 then LayerDone([])
    else
      match ChannelIssuesUpTo(ks, n - 1, tolerance)
      case LayerCrashed => LayerCrashed
      case LayerDone(issues) =>
        match CheckChannel(ks, Channels[n - 1], tolerance)
        case Crashed => LayerCrashed
        case Mismatched(f, l) => LayerDone(issues + [ChannelIssue(Channels[n - 1], f, l)])
        case _ => LayerDone(issues)
  }

  /** The issues of one layer; a layer without `ks` has none. */
  function LayerIssues(layer: Json, tolerance: real): LayerVerdict {
    if !layer.JObj? then LayerCrashed  // `layer.get` raises AttributeError
    else if !HasKey(layer, "ks") then LayerDone([])
    else ChannelIssuesUpTo(Get0(layer, "ks"), |Channels|, tolerance)
  }

  function Prefixed(name: Json, issues: seq<ChannelIssue>): (r: seq<Issue>)
    ensures |r| == |issues|
    ensures forall k :: 0 <= k < |issues| ==> r[k] == Issue(name, issues[k])
  {
    seq(|issues|, k requires 0 <= k < |issues| => Issue(name, issues[k]))
  }

  datatype ScanState = ScanCrashed | Scanned(issues: seq<Issue>, analysis: seq<LayerInfo>)

  /** One iteration of the layer loop. */
  function ScanStep(st: ScanState, layer: Json, index: nat, tolerance: real): ScanState {
    match st
    case ScanCrashed => ScanCrashed
    case Scanned(issues, analysis) =>
      match LayerIssues(layer, tolerance)
      case LayerCrashed => ScanCrashed
      case LayerDone(li) =>
        if li == [] then st
        else
          var name := LayerName(layer, index);
          Scanned(issues + Prefixed(name, li), analysis + [LayerInfo(index, name, li)])
  }

  /** The state of `info` after the first `n` layers. */
  function ScanUpTo(layers: seq<Json>, n: nat, tolerance: real): ScanState
    requires n <= |layers|
  {
    if n == 0 then Scanned([], [])
    else ScanStep(ScanUpTo(layers, n - 1, tolerance), layers[n - 1], n - 1, tolerance)
  }

  /** The outcome of the whole scan, as a function of the document. */
  function LoopSpec(data: Json, tolerance: real): LoopReport {
    match ContainsKey(data, "layers")
    case None => Crash              // `'layers' not in data` raises TypeError
    case Some(false) => NoLayers
    case Some(true) =>
      if !data.JObj? then Crash     // `data['layers']` on a list or a string raises TypeError
      else
        match Elements(Get0(data, "layers"))
        case None => Crash
        case Some(layers) =>
          match ScanUpTo(layers, |layers|, tolerance)
          case ScanCrashed => Crash
          case Scanned(issues, analysis) => Report(issues == [], issues, analysis)
  }

  /** A top-level list or string is searched with `in` rather than indexed:
      without a `layers` item it has no layers; with one, indexing it by a
      string raises. A number or None cannot be searched at all. */
  lemma NonDictDocuments(tolerance: real)
    ensures LoopSpec(JArr([]), tolerance) == NoLayers
    ensures LoopSpec(JArr([JInt(1), JStr("ks")]), tolerance) == NoLayers
    ensures LoopSpec(JStr("lay"), tolerance) == NoLayers
    ensures LoopSpec(JArr([JStr("layers")]), tolerance) == Crash
    ensures LoopSpec(JInt(7), tolerance) == Crash
  {
    var xs := [JInt(1), JStr("ks")];
    assert ToPy(JInt(1)) != ToPy(JStr("layers"));
    assert ToPy(JStr("ks")) != ToPy(JStr("layers"));
    assert !In(JArr(xs), "layers");
    assert PyEq(JStr("layers"), JStr("layers"));
    assert JArr([JStr("layers")]).items[0] == JStr("layers");
    ContainsSubstringAt("lay", "layers");
  }

  // ---------------------------------------------------------------------
  // Properties of the comparison rules
  // ---------------------------------------------------------------------

  /** `_rotation_matches` does not depend on the order of its values. */
  lemma RotationMatchesSymmetric(v1: Json, v2: Json, tolerance: real, m: bool)
    requires RotationMatches(v1, v2, tolerance) == Ok(m)
    ensures RotationMatches(v2, v1, tolerance) == Ok(m)
  {
    var a, b := NumValue(Degrees(v1)), NumValue(Degrees(v2));
    assert Abs(a - b) == Abs(b - a);
  }

  /** `k` whole turns, in degrees. */
  function Turns(k: int): real {
    360.0 * (k as real)
  }

  /** Within `tolerance` of some whole number of turns. */
  ghost predicate NearFullTurn(d: real, tolerance: real) {
    exists k: int :: Abs(d - Turns(k)) <= tolerance
  }

  lemma {:induction false} Mod360OfTurns(k: int)
    ensures Mod360(360.0 * (k as real)) == 0.0
  {
    assert (360.0 * (k as real)) / 360.0 == k as real;
  }

  /** For a tolerance in [0, 180), two numeric rotations match iff they are
      within the tolerance of each other modulo 360 degrees. */
  lemma {:induction false} RotationMatchesIffNearFullTurn(a: real, b: real, tolerance: real)
    requires 0.0 <= tolerance < 180.0
    ensures RotationMatches(JNum(a), JNum(b), tolerance) == Ok(NearFullTurn(a - b, tolerance))
  {
    var d := Abs(a - b);
    var r := Mod360(d);
    var q := (d / 360.0).Floor;
    assert d == 360.0 * (q as real) + r;
    if r <= tolerance {
      var k := if a - b >= 0.0 then q else -q;
      assert Abs(a - b - Turns(k)) <= tolerance;
    } else if r >= 360.0 - tolerance {
      var k := if a - b >= 0.0 then q + 1 else -(q + 1);
      assert Abs(a - b - Turns(k)) <= tolerance;
    } else {
      forall k: int ensures Abs(a - b - Turns(k)) > tolerance {
        var k' := if a - b >= 0.0 then k else -k;
        assert Abs(a - b - Turns(k)) == Abs(d - 360.0 * (k' as real));
        if k' <= q {
          assert d - 360.0 * (k' as real) >= r;
        } else {
          assert 360.0 * (k' as real) - d >= 360.0 - r;
        }
      }
    }
  }

  /** Values a whole number of turns apart always match, for any
      non-negative tolerance: 0 and 360, 0 and -360, 10 and 370. */
  lemma {:induction false} FullTurnsMatch(x: real, k: int, tolerance: real)
    requires tolerance >= 0.0
    ensures RotationMatches(JNum(x), JNum(x + 360.0 * (k as real)), tolerance) == Ok(true)
    ensures RotationMatches(JArr([JNum(x)]), JArr([JNum(x + 360.0 * (k as real))]), tolerance) == Ok(true)
  {
    var d := Abs(x - (x + 360.0 * (k as real)));
    var m := if k >= 0 then k else -k;
    assert d == 360.0 * (m as real);
    Mod360OfTurns(m);
  }

  lemma RotationExamples(tolerance: real)
    requires 0.0 <= tolerance < 180.0
    ensures RotationMatches(JInt(0), JInt(360), tolerance) == Ok(true)
    ensures RotationMatches(JInt(0), JInt(-360), tolerance) == Ok(true)
    ensures RotationMatches(JInt(10), JInt(370), tolerance) == Ok(true)
    ensures RotationMatches(JInt(0), JInt(180), tolerance) == Ok(false)
  {
    Mod360OfTurns(1);
    assert Mod360(180.0) == 180.0 by {
      assert (180.0 / 360.0).Floor == 0;
    }
  }

  /** Lists of different lengths never match. */
  lemma ValuesMatchLengthMismatch(xs: seq<Json>, ys: seq<Json>, tolerance: real)
    requires |xs| != |ys|
    ensures ValuesMatch(JArr(xs), JArr(ys), tolerance) == Ok(false)
  {
  }

  /** Equal-length numeric lists match iff every component pair is within
      the tolerance: one component out of tolerance fails the whole value. */
  lemma {:induction false} ValuesMatchComponentwise(xs: seq<Json>, ys: seq<Json>, tolerance: real)
    requires |xs| == |ys|
    requires forall i :: 0 <= i < |xs| ==> IsNumber(xs[i]) && IsNumber(ys[i])
    ensures ValuesMatch(JArr(xs), JArr(ys), tolerance) ==
            Ok(forall i :: 0 <= i < |xs| ==> Abs(NumValue(xs[i]) - NumValue(ys[i])) <= tolerance)
  {
    AllWithinComponentwise(xs, ys, tolerance);
  }

  lemma {:induction false} AllWithinComponentwise(xs: seq<Json>, ys: seq<Json>, tolerance: real)
    requires |xs| == |ys|
    requires forall i :: 0 <= i < |xs| ==> IsNumber(xs[i]) && IsNumber(ys[i])
    ensures AllWithin(xs, ys, tolerance) ==
            Ok(forall i :: 0 <= i < |xs| ==> Abs(NumValue(xs[i]) - NumValue(ys[i])) <= tolerance)
    decreases |xs|
  {
    if |xs| > 0 {
      AllWithinComponentwise(xs[1..], ys[1..], tolerance);
      assert forall i :: 1 <= i < |xs| ==> xs[1..][i - 1] == xs[i] && ys[1..][i - 1] == ys[i];
    }
  }

  /** A list never matches a number: the fallback `==` compares them. */
  lemma ValuesMatchListVersusNumber(xs: seq<Json>, n: Json, tolerance: real)
    requires IsNumber(n)
    ensures ValuesMatch(JArr(xs), n, tolerance) == Ok(false)
    ensures ValuesMatch(n, JArr(xs), tolerance) == Ok(false)
  {
  }

  // ---------------------------------------------------------------------
  // Which channels are examined
  // ---------------------------------------------------------------------

  /** A channel that is absent, not a dict, not animated (`a` missing or 0),
      without `k`, or with fewer than two keyframes produces no issue. */
  lemma StaticChannelSkipped(ks: Json, c: Channel, tolerance: real)
    requires ks.JObj?
    requires !HasKey(ks, c.Key()) ||
             var prop := Get0(ks, c.Key());
             !prop.JObj? || !HasKey(prop, "a") || EqualsNumber(Get0(prop, "a"), 0.0) ||
             !HasKey(prop, "k") || !Get0(prop, "k").JArr? || |Get0(prop, "k").items| < 2
    ensures CheckChannel(ks, c, tolerance) == Skipped
  {
  }

  /** A keyframe's value is its truthy `s`, else its `e`; when either end
      value is None the channel is skipped silently. */
  lemma KeyframeEndsFallback(kf: Json, c: Channel, other: Json, tolerance: real)
    requires kf.JObj?
    ensures KeyframeValue(kf) == if Truthy(Get0(kf, "s")) then Get0(kf, "s") else Get0(kf, "e")
    ensures !HasKey(kf, "e") && !Truthy(Get0(kf, "s")) ==>
              CompareEnds(c, KeyframeValue(kf), other, tolerance) == Skipped &&
              CompareEnds(c, other, KeyframeValue(kf), tolerance) == Skipped
  {
  }

  /** A layer without `ks` contributes nothing; a layer's name defaults to `Layer i`. */
  lemma LayerWithoutTransform(layer: Json, i: nat, tolerance: real)
    requires layer.JObj?
    ensures !HasKey(layer, "ks") ==> LayerIssues(layer, tolerance) == LayerDone([])
    ensures !HasKey(layer, "nm") ==> LayerName(layer, i) == JStr("Layer " + NatToString(i))
  {
  }

  // ---------------------------------------------------------------------
  // Properties of the whole scan
  // ---------------------------------------------------------------------

  /** Channel `c` of layer `layer` is reported as a mismatch. */
  predicate ChannelMismatch(layer: Json, c: Channel, tolerance: real) {
    layer.JObj? && HasKey(layer, "ks") && CheckChannel(Get0(layer, "ks"), c, tolerance).Mismatched?
  }

  /** The issues of one layer are exactly its mismatching channels, in the
      order Position, Scale, Rotation, Opacity. */
  lemma {:induction false} ChannelIssuesAreMismatches(ks: Json, n: nat, tolerance: real, li: seq<ChannelIssue>)
    requires n <= |Channels|
    requires ChannelIssuesUpTo(ks, n, tolerance) == LayerDone(li)
    ensures li == [] <==> forall c :: 0 <= c < n ==> !CheckChannel(ks, Channels[c], tolerance).Mismatched?
    ensures forall k :: 0 <= k < |li| ==>
              ChannelIndex(li[k].channel) < n &&
              CheckChannel(ks, li[k].channel, tolerance) == Mismatched(li[k].first, li[k].last)
    ensures forall k, l :: 0 <= k < l < |li| ==> ChannelIndex(li[k].channel) < ChannelIndex(li[l].channel)
  {
    if n > 0 {
      var prev := ChannelIssuesUpTo(ks, n - 1, tolerance);
      ChannelIssuesAreMismatches(ks, n - 1, tolerance, prev.issues);
      var last := Channels[n - 1];
      assert ChannelIndex(last) == n - 1;
    }
  }

  /** `info['issues']` as built from `info['layer_analysis']`: each layer's
      issues in turn, prefixed with that layer's name. */
  function Flatten(analysis: seq<LayerInfo>): seq<Issue> {
    if |analysis| == 0 then []
    else
      var last := analysis[|analysis| - 1];
      Flatten(analysis[..|analysis| - 1]) + Prefixed(last.name, last.issues)
  }

  /** One layer loop iteration: a layer whose channels all match leaves
      the lists as they are; otherwise its issues are appended to both. */
  lemma ScanStepShape(st: ScanState, layer: Json, index: nat, tolerance: real)
    requires ScanStep(st, layer, index, tolerance).Scanned?
    ensures st.Scanned? && layer.JObj? && LayerIssues(layer, tolerance).LayerDone?
    ensures var li := LayerIssues(layer, tolerance).issues;
            var next := ScanStep(st, layer, index, tolerance);
            if li == [] then next == st
            else
              next.issues == st.issues + Prefixed(LayerName(layer, index), li) &&
              next.analysis == st.analysis + [LayerInfo(index, LayerName(layer, index), li)]
  {
  }

  lemma ScanUpToStep(layers: seq<Json>, n: nat, tolerance: real)
    requires 0 < n <= |layers|
    ensures ScanUpTo(layers, n, tolerance) ==
            ScanStep(ScanUpTo(layers, n - 1, tolerance), layers[n - 1], n - 1, tolerance)
  {
  }

  /** After `n` layers, the issue list is the analysis flattened with the layer-name prefixes. */
  lemma {:induction false} ScanIssuesFlatten(layers: seq<Json>, n: nat, tolerance: real)
    requires n <= |layers|
    requires ScanUpTo(layers, n, tolerance).Scanned?
    ensures ScanUpTo(layers, n, tolerance).issues == Flatten(ScanUpTo(layers, n, tolerance).analysis)
  {
    if n > 0 {
      ScanUpToStep(layers, n, tolerance);
      var prev := ScanUpTo(layers, n - 1, tolerance);
      ScanStepShape(prev, layers[n - 1], n - 1, tolerance);
      ScanIssuesFlatten(layers, n - 1, tolerance);
      var analysis := ScanUpTo(layers, n, tolerance).analysis;
      if analysis != prev.analysis {
        assert analysis[..|analysis| - 1] == prev.analysis;
      }
    }
  }

  /** Entry `e` of the analysis describes layer `e.index` of `layers`. */
  predicate DescribesLayer(layers: seq<Json>, e: LayerInfo, tolerance: real) {
    e.index < |layers| && layers[e.index].JObj? &&
    e.name == LayerName(layers[e.index], e.index) &&
    LayerIssues(layers[e.index], tolerance) == LayerDone(e.issues) &&
    e.issues != []
  }

  /** After `n` layers, every analysis entry is a layer among the first `n`
      that has issues, under its name (`nm`, else `Layer i`). */
  lemma {:induction false} ScanAnalysisEntries(layers: seq<Json>, n: nat, tolerance: real)
    requires n <= |layers|
    requires ScanUpTo(layers, n, tolerance).Scanned?
    ensures forall e :: e in ScanUpTo(layers, n, tolerance).analysis ==>
              e.index < n && DescribesLayer(layers, e, tolerance)
  {
    if n > 0 {
      ScanUpToStep(layers, n, tolerance);
      ScanStepShape(ScanUpTo(layers, n - 1, tolerance), layers[n - 1], n - 1, tolerance);
      ScanAnalysisEntries(layers, n - 1, tolerance);
    }
  }

  /** The analysis lists its layers in increasing layer order. */
  lemma {:induction false} ScanAnalysisOrdered(layers: seq<Json>, n: nat, tolerance: real)
    requires n <= |layers|
    requires ScanUpTo(layers, n, tolerance).Scanned?
    ensures var analysis := ScanUpTo(layers, n, tolerance).analysis;
            forall k, l :: 0 <= k < l < |analysis| ==> analysis[k].index < analysis[l].index
  {
    if n > 0 {
      ScanUpToStep(layers, n, tolerance);
      ScanStepShape(ScanUpTo(layers, n - 1, tolerance), layers[n - 1], n - 1, tolerance);
      ScanAnalysisOrdered(layers, n - 1, tolerance);
      ScanAnalysisEntries(layers, n - 1, tolerance);
    }
  }

  /** Some transform channel of `layer` is reported as a mismatch. */
  predicate LayerHasMismatch(layer: Json, tolerance: real) {
    exists c :: 0 <= c < |Channels| && ChannelMismatch(layer, Channels[c], tolerance)
  }

  /** A layer has issues iff one of its channels mismatches. */
  lemma LayerIssuesIffMismatch(layer: Json, tolerance: real)
    requires LayerIssues(layer, tolerance).LayerDone?
    ensures LayerIssues(layer, tolerance).issues == [] <==> !LayerHasMismatch(layer, tolerance)
  {
    if layer.JObj? && HasKey(layer, "ks") {
      var ks := Get0(layer, "ks");
      ChannelIssuesAreMismatches(ks, |Channels|, tolerance, LayerIssues(layer, tolerance).issues);
    }
  }

  /** None of the first `n` layers has a mismatching channel. */
  predicate NoMismatchUpTo(layers: seq<Json>, n: nat, tolerance: real)
    requires n <= |layers|
  {
    n == 0 || (NoMismatchUpTo(layers, n - 1, tolerance) && !LayerHasMismatch(layers[n - 1], tolerance))
  }

  lemma {:induction false} NoMismatchUpToAll(layers: seq<Json>, n: nat, tolerance: real)
    requires n <= |layers|
    ensures NoMismatchUpTo(layers, n, tolerance) <==>
            forall k :: 0 <= k < n ==> !LayerHasMismatch(layers[k], tolerance)
  {
    if n > 0 {
      NoMismatchUpToAll(layers, n - 1, tolerance);
      if NoMismatchUpTo(layers, n, tolerance) {
        forall k | 0 <= k < n ensures !LayerHasMismatch(layers[k], tolerance) {
          if k < n - 1 {
          }
        }
      }
    }
  }

  /** After `n` layers there is no issue iff no channel of those layers mismatches. */
  lemma {:induction false} ScanIssuesIffMismatch(layers: seq<Json>, n: nat, tolerance: real)
    requires n <= |layers|
    requires ScanUpTo(layers, n, tolerance).Scanned?
    ensures ScanUpTo(layers, n, tolerance).issues == [] <==> NoMismatchUpTo(layers, n, tolerance)
  {
    if n > 0 {
      ScanUpToStep(layers, n, tolerance);
      var prev := ScanUpTo(layers, n - 1, tolerance);
      ScanStepShape(prev, layers[n - 1], n - 1, tolerance);
      ScanIssuesIffMismatch(layers, n - 1, tolerance);
      LayerIssuesIffMismatch(layers[n - 1], tolerance);
    }
  }

  /** The overall verdict: a document with layers is a perfect loop iff no
      channel of any layer mismatches, and then no issue is reported. */
  lemma PerfectLoopIffNoMismatch(data: Json, tolerance: real)
    requires data.JObj?
    requires LoopSpec(data, tolerance).Report?
    ensures var layers := Elements(Get0(data, "layers")).value;
            LoopSpec(data, tolerance).isPerfectLoop <==>
              forall k :: 0 <= k < |layers| ==> !LayerHasMismatch(layers[k], tolerance)
  {
    var layers := Elements(Get0(data, "layers")).value;
    ScanIssuesIffMismatch(layers, |layers|, tolerance);
    NoMismatchUpToAll(layers, |layers|, tolerance);
  }

  lemma {:induction false} CrashPersists(layers: seq<Json>, n: nat, m: nat, tolerance: real)
    requires n <= m <= |layers|
    requires ScanUpTo(layers, n, tolerance).ScanCrashed?
    ensures ScanUpTo(layers, m, tolerance).ScanCrashed?
  {
    if n < m {
      CrashPersists(layers, n, m - 1, tolerance);
    }
  }

  lemma {:induction false} ChannelCrashPersists(ks: Json, n: nat, m: nat, tolerance: real)
    requires n <= m <= |Channels|
    requires ChannelIssuesUpTo(ks, n, tolerance).LayerCrashed?
    ensures ChannelIssuesUpTo(ks, m, tolerance).LayerCrashed?
  {
    if n < m {
      ChannelCrashPersists(ks, n, m - 1, tolerance);
    }
  }

  /** The channel loop of one layer: appends an issue per mismatching
      channel, in channel order, and stops on an uncaught exception. */
  method CheckLayerChannels(ks: Json, tolerance: real) returns (v: LayerVerdict)
    ensures v == ChannelIssuesUpTo(ks, |Channels|, tolerance)
  {
    var layerIssues: seq<ChannelIssue> := [];
    for c := 0 to |Channels|
      invariant ChannelIssuesUpTo(ks, c, tolerance) == LayerDone(layerIssues)
    {
      var verdict := CheckChannel(ks, Channels[c], tolerance);
      if verdict.Crashed? {
        ChannelCrashPersists(ks, c + 1, |Channels|, tolerance);
        return LayerCrashed;
      } else if verdict.Mismatched? {
        layerIssues := layerIssues + [ChannelIssue(Channels[c], verdict.first, verdict.last)];
      }
    }
    v := LayerDone(layerIssues);
  }

  /** `validate_loop` on an already-parsed document: the layer loop,
      clearing the `is_perfect_loop` flag on every issue and extending the
      issue and analysis lists as the script does. */
  method ValidateLoop(data: Json, tolerance: real) returns (r: LoopReport)
    ensures r == LoopSpec(data, tolerance)
    ensures r.Report? ==> data.JObj? && (r.isPerfectLoop <==> r.issues == [])
    ensures !Searchable(data) ==> r == Crash
    ensures Searchable(data) && !In(data, "layers") ==> r == NoLayers
  {
    var hasLayers := ContainsKey(data, "layers");
    if hasLayers.None? {
      return Crash;
    }
    if !hasLayers.value {
      return NoLayers;
    }
    if !data.JObj? {
      return Crash;
    }
    var elements := Elements(Get0(data, "layers"));
    if elements.None? {
      return Crash;
    }
    var layers := elements.value;
    var perfect := true;
    var issues: seq<Issue> := [];
    var analysis: seq<LayerInfo> := [];
    var i := 0;
    while i < |layers|
      invariant 0 <= i <= |layers|
      invariant ScanUpTo(layers, i, tolerance) == Scanned(issues, analysis)
      invariant perfect <==> issues == []
    {
      var layer := layers[i];
      if !layer.JObj? {
        CrashPersists(layers, i + 1, |layers|, tolerance);
        return Crash;
      }
      var name := LayerName(layer, i);
      assert ScanUpTo(layers, i + 1, tolerance) == ScanStep(Scanned(issues, analysis), layer, i, tolerance);
      if HasKey(layer, "ks") {
        var verdict := CheckLayerChannels(Get0(layer, "ks"), tolerance);
        assert LayerIssues(layer, tolerance) == verdict;
        if verdict.LayerCrashed? {
          CrashPersists(layers, i + 1, |layers|, tolerance);
          return Crash;
        }
        if verdict.issues != [] {
          perfect := false;
          analysis := analysis + [LayerInfo(i, name, verdict.issues)];
          issues := issues + Prefixed(name, verdict.issues);
        }
      }
      i := i + 1;
    }
    r := Report(perfect, issues, analysis);
  }
}
