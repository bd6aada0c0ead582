/**
 * Structural validation of a Lottie file (scripts/validate_lottie.py):
 * the required top-level properties, frame-rate, duration, dimension,
 * layer, asset and file-size rules, and the `passes` flag.
 *
 * Reading the file is left to the caller: the outcome of locating, reading
 * and parsing it is given as a `LoadedFile`, with the file size in bytes.
 */
module LottieValidator {
  import opened Util
  import opened Json

  /** What opening and parsing the file gave. */
  datatype LoadedFile =
    | NotFound
    | Unreadable
    | InvalidJson(sizeBytes: nat)
    | Parsed(data: Json, sizeBytes: nat)

  datatype LottieError =
    | BadJson
    | CannotRead
    | MissingProperties(keys: seq<string>)
    | NoLayers

  datatype LottieWarning =
    | LowFrameRate(fps: real)
    | HighFrameRate(fps: real)
    | ShortAnimation(seconds: real)
    | LongAnimation(seconds: real)
    | SmallDimensions
    | LargeDimensions
    | ManyLayers(count: nat)
    | VeryLargeEmbeddedImage(asset: nat, kb: real)
    | LargeEmbeddedImage(asset: nat, kb: real)
    | ExternalAsset(asset: nat)
    | LargeFile(kb: real)

  /** The returned `info`: a bare error for a missing file, otherwise the
      error and warning lists. */
  datatype Info = FileNotFound | Details(errors: seq<LottieError>, warnings: seq<LottieWarning>)

  const RequiredProps: seq<string> := ["v", "fr", "ip", "op", "w", "h", "layers"]

  // ---------------------------------------------------------------------
  // What the script needs of the document so that no step raises
  // ---------------------------------------------------------------------

  /** The number `data[key]` of a dict `data`. */
  function Num(data: Json, key: string): real
    requires data.JObj? && IsNumber(Get0(data, key))
  {
    NumValue(Get0(data, key))
  }

  /** `asset.get('e', 0) == 1`. */
  predicate IsEmbedded(asset: Json)
    requires asset.JObj?
  {
    EqualsNumber(Get(asset, "e", JInt(0)), 1.0)
  }

  /** An asset the loop can inspect: a dict whose path is a string when
      `path.startswith` is called on it. */
  predicate InspectableAsset(asset: Json) {
    asset.JObj? && (IsEmbedded(asset) && HasKey(asset, "p") ==> Get0(asset, "p").JStr?)
  }

  /** An embedded image: `is_embedded and path.startswith('data:image')`. */
  predicate EmbeddedImage(asset: Json)
    requires InspectableAsset(asset)
  {
    IsEmbedded(asset) && HasKey(asset, "p") && StartsWith(Get0(asset, "p").s, "data:image")
  }

  /** `data['v']` is read only when `'v' in data`, and only a dict can be read by key. */
  predicate VersionTyped(data: Json) {
    In(data, "v") ==> data.JObj?
  }

  /** `fr`, when `in` the document, is a dict entry holding a number the script can compare. */
  predicate FrameRateTyped(data: Json) {
    In(data, "fr") ==> data.JObj? && IsNumber(Get0(data, "fr"))
  }

  /** `ip` and `op` are read when both are present, and `(op - ip) / fr`
      neither raises nor divides by zero when `fr` is present too. */
  predicate DurationTyped(data: Json) {
    FrameRateTyped(data) &&
    (In(data, "ip") && In(data, "op") ==> data.JObj?) &&
    (In(data, "ip") && In(data, "op") && In(data, "fr") ==>
       IsNumber(Get0(data, "ip")) && IsNumber(Get0(data, "op")) && Num(data, "fr") != 0.0)
  }

  /** `width < 100 or height < 100` does not raise: `w` is a number, and so
      is `h` unless the short-circuit skips it (`w` under 100). */
  predicate DimensionsTyped(data: Json) {
    In(data, "w") && In(data, "h") ==>
      data.JObj? && IsNumber(Get0(data, "w")) &&
      (Num(data, "w") >= 100.0 ==> IsNumber(Get0(data, "h")))
  }

  /** `len(data['layers'])` does not raise. */
  predicate LayersTyped(data: Json) {
    In(data, "layers") ==> data.JObj? && Len(Get0(data, "layers")).Some?
  }

  /** `assets`, when present, has a length, and when non-empty holds
      inspectable assets only. */
  predicate AssetsTyped(data: Json) {
    In(data, "assets") ==>
      data.JObj? && Len(Get0(data, "assets")).Some? &&
      (Len(Get0(data, "assets")).value > 0 ==>
         var assets := Elements(Get0(data, "assets")).value;
         forall i :: 0 <= i < |assets| ==> InspectableAsset(assets[i]))
  }

  /** The script runs to its end on the document: `in` is defined on it (a
      dict, a list or a string), only a dict is read by key, and no
      comparison, subtraction, division or `len` raises. */
  predicate WellTyped(data: Json) {
    Searchable(data) && VersionTyped(data) && DurationTyped(data) && DimensionsTyped(data) &&
    LayersTyped(data) && AssetsTyped(data)
  }

  // ---------------------------------------------------------------------
  // The rules, one function each
  // ---------------------------------------------------------------------

  /** `[prop for prop in props if prop not in data]`. */
  function MissingProps(data: Json, props: seq<string>): seq<string> {
    if |props| == 0 then []
    else (if In(data, props[0]) then [] else [props[0]]) + MissingProps(data, props[1..])
  }

  /** The number of layers, when `layers` is present. */
  function LayerCount(data: Json): Option<nat>
    requires LayersTyped(data)
  {
    if In(data, "layers") then Some(Len(Get0(data, "layers")).value) else None
  }

  /** The errors of a parsed document: missing properties, then an empty layer list. */
  function Errors(data: Json): seq<LottieError>
    requires LayersTyped(data)
  {
    var missing := MissingProps(data, RequiredProps);
    (if missing != [] then [MissingProperties(missing)] else []) +
    (if LayerCount(data) == Some(0) then [NoLayers] else [])
  }

  function FrameRateWarnings(data: Json): seq<LottieWarning>
    requires FrameRateTyped(data)
  {
    if !In(data, "fr") then []
    else
      var fps := Num(data, "fr");
      if fps < 15.0 then [LowFrameRate(fps)] else if fps > 120.0 then [HighFrameRate(fps)] else []
  }

  /** `(op - ip) / fr`, present when all three are. */
  function Duration(data: Json): Option<real>
    requires DurationTyped(data)
  {
    if In(data, "ip") && In(data, "op") && In(data, "fr") then
      Some((Num(data, "op") - Num(data, "ip")) / Num(data, "fr"))
    else None
  }

  function DurationWarnings(data: Json): seq<LottieWarning>
    requires DurationTyped(data)
  {
    match Duration(data)
    case None => []
    case Some(d) => if d < 1.0 then [ShortAnimation(d)] else if d > 10.0 then [LongAnimation(d)] else []
  }

  function DimensionWarnings(data: Json): seq<LottieWarning>
    requires DimensionsTyped(data)
  {
    if !(In(data, "w") && In(data, "h")) then []
    else if Num(data, "w") < 100.0 || Num(data, "h") < 100.0 then [SmallDimensions]
    else if Num(data, "w") > 2048.0 || Num(data, "h") > 2048.0 then [LargeDimensions]
    else []
  }

  function LayerWarnings(data: Json): seq<LottieWarning>
    requires LayersTyped(data)
  {
    match LayerCount(data)
    case Some(n) => if n > 50 then [ManyLayers(n)] else []
    case None => []
  }

  /** `path.split(',', 1)[1]` when the path has a comma, else the whole path. */
  function Base64Part(path: string): string {
    match IndexOf(path, ',')
    case Some(k) => path[k + 1..]
    case None => path
  }

  /** `len(base64_data) * 3 / 4 / 1024`: the approximate decoded size in KB. */
  function DecodedKb(path: string): real {
    (|Base64Part(path)| * 3) as real / 4.0 / 1024.0
  }

  /** The warning the loop issues for asset number `i`, if any. */
  function AssetWarning(asset: Json, i: nat): seq<LottieWarning>
    requires InspectableAsset(asset)
  {
    if !HasKey(asset, "p") then []
    else if EmbeddedImage(asset) then
      var kb := DecodedKb(Get0(asset, "p").s);
      if kb > 500.0 then [VeryLargeEmbeddedImage(i, kb)]
      else if kb > 100.0 then [LargeEmbeddedImage(i, kb)]
      else []
    else if !IsEmbedded(asset) then [ExternalAsset(i)]
    else []
  }

  /** The warnings for the first `n` assets. */
  function AssetWarningsUpTo(assets: seq<Json>, n: nat): seq<LottieWarning>
    requires n <= |assets| && forall i :: 0 <= i < |assets| ==> InspectableAsset(assets[i])
  {
    if n == 0 then [] else AssetWarningsUpTo(assets, n - 1) + AssetWarning(assets[n - 1], n - 1)
  }

  /** The assets the loop walks: none unless `assets` is present and non-empty. */
  function CheckedAssets(data: Json): (assets: seq<Json>)
    requires AssetsTyped(data)
    ensures forall i :: 0 <= i < |assets| ==> InspectableAsset(assets[i])
  {
    if In(data, "assets") && Len(Get0(data, "assets")).value > 0 then Elements(Get0(data, "assets")).value
    else []
  }

  function FileSizeWarnings(sizeBytes: nat): seq<LottieWarning> {
    var kb := sizeBytes as real / 1024.0;
    if kb > 500.0 then [LargeFile(kb)] else []
  }

  /** All warnings of a parsed document, in the order the script issues them. */
  function Warnings(data: Json, sizeBytes: nat): seq<LottieWarning>
    requires WellTyped(data)
  {
    var assets := CheckedAssets(data);
    DocumentWarnings(data) + AssetWarningsUpTo(assets, |assets|) + FileSizeWarnings(sizeBytes)
  }

  /** The warnings about the top-level properties, in the script's order. */
  function DocumentWarnings(data: Json): seq<LottieWarning>
    requires WellTyped(data)
  {
    FrameRateWarnings(data) + DurationWarnings(data) + DimensionWarnings(data) + LayerWarnings(data)
  }

  // ---------------------------------------------------------------------
  // validate_lottie
  // ---------------------------------------------------------------------

  /** `validate_lottie(path)`: a missing file, an unreadable file and
      invalid JSON end the check early; a parsed document goes through the
      rules. */
  method ValidateLottie(file: LoadedFile) returns (passes: bool, info: Info)
    requires file.Parsed? ==> WellTyped(file.data)
    ensures file.NotFound? ==> info == FileNotFound
    ensures file.Unreadable? ==> info == Details([CannotRead], [])
    ensures file.InvalidJson? ==> info == Details([BadJson], [])
    ensures file.Parsed? ==> info == Details(Errors(file.data), Warnings(file.data, file.sizeBytes))
    ensures passes <==> info.Details? && info.errors == []
  {
    match file
    case NotFound =>
      return false, FileNotFound;
    case Unreadable =>
      return false, Details([CannotRead], []);
    case InvalidJson(_) =>
      return false, Details([BadJson], []);
    case Parsed(data, sizeBytes) =>
      var errors, warnings;
      passes, errors, warnings := CheckDocument(data, sizeBytes);
      info := Details(errors, warnings);
  }

  /** The rules applied to a parsed document, in the script's order: the
      error and warning lists grow step by step and `passes` is cleared on
      each error. */
  method CheckDocument(data: Json, sizeBytes: nat)
    returns (passes: bool, errors: seq<LottieError>, warnings: seq<LottieWarning>)
    requires WellTyped(data)
    ensures errors == Errors(data)
    ensures warnings == Warnings(data, sizeBytes)
    ensures passes <==> errors == []
  {
    passes := true;
    errors := [];
    warnings := [];

    var missing := MissingProps(data, RequiredProps);
    if missing != [] {
      errors := errors + [MissingProperties(missing)];
      passes := false;
    }

    var sectionWarnings := CheckFrameRate(data);
    warnings := warnings + sectionWarnings;
    assert warnings == FrameRateWarnings(data);
    sectionWarnings := CheckDuration(data);
    warnings := warnings + sectionWarnings;
    sectionWarnings := CheckDimensions(data);
    warnings := warnings + sectionWarnings;
    var noLayers;
    noLayers, sectionWarnings := CheckLayers(data);
    if noLayers {
      errors := errors + [NoLayers];
      passes := false;
    }
    warnings := warnings + sectionWarnings;
    assert warnings == DocumentWarnings(data);

    var assetWarnings := CheckAssets(CheckedAssets(data));
    warnings := warnings + assetWarnings;
    ghost var beforeFileSize := warnings;

    var fileSizeKb := sizeBytes as real / 1024.0;
    if fileSizeKb > 500.0 {
      warnings := warnings + [LargeFile(fileSizeKb)];
    }
    assert warnings == beforeFileSize + FileSizeWarnings(sizeBytes);
  }

  /** The frame-rate rule. */
  method CheckFrameRate(data: Json) returns (warnings: seq<LottieWarning>)
    requires FrameRateTyped(data)
    ensures warnings == FrameRateWarnings(data)
  {
    warnings := [];
    if In(data, "fr") {
      var fps := NumValue(Get0(data, "fr"));
      if fps < 15.0 {
        warnings := warnings + [LowFrameRate(fps)];
      } else if fps > 120.0 {
        warnings := warnings + [HighFrameRate(fps)];
      }
    }
  }

  /** The duration rule: `(op - ip) / fr` when all three are present. */
  method CheckDuration(data: Json) returns (warnings: seq<LottieWarning>)
    requires DurationTyped(data)
    ensures warnings == DurationWarnings(data)
  {
    warnings := [];
    if In(data, "ip") && In(data, "op") {
      var inPoint, outPoint := Get0(data, "ip"), Get0(data, "op");
      if In(data, "fr") {
        var seconds := (NumValue(outPoint) - NumValue(inPoint)) / NumValue(Get0(data, "fr"));
        if seconds < 1.0 {
          warnings := warnings + [ShortAnimation(seconds)];
        } else if seconds > 10.0 {
          warnings := warnings + [LongAnimation(seconds)];
        }
      }
    }
  }

  /** The dimension rule: small if either side is under 100, otherwise
      large if either side is over 2048. */
  method CheckDimensions(data: Json) returns (warnings: seq<LottieWarning>)
    requires DimensionsTyped(data)
    ensures warnings == DimensionWarnings(data)
  {
    warnings := [];
    if In(data, "w") && In(data, "h") {
      var width, height := NumValue(Get0(data, "w")), Get0(data, "h");
      if width < 100.0 || NumValue(height) < 100.0 {
        warnings := warnings + [SmallDimensions];
      } else if width > 2048.0 || NumValue(height) > 2048.0 {
        warnings := warnings + [LargeDimensions];
      }
    }
  }

  /** The layer rule: an empty layer list is an error, more than 50 layers a warning. */
  method CheckLayers(data: Json) returns (noLayers: bool, warnings: seq<LottieWarning>)
    requires LayersTyped(data)
    ensures noLayers <==> LayerCount(data) == Some(0)
    ensures warnings == LayerWarnings(data)
  {
    noLayers := false;
    warnings := [];
    if In(data, "layers") {
      var numLayers := Len(Get0(data, "layers")).value;
      if numLayers == 0 {
        noLayers := true;
      } else if numLayers > 50 {
        warnings := warnings + [ManyLayers(numLayers)];
      }
    }
  }

  /** The asset loop: the warnings for each asset in turn. */
  method CheckAssets(assets: seq<Json>) returns (warnings: seq<LottieWarning>)
    requires forall i :: 0 <= i < |assets| ==> InspectableAsset(assets[i])
    ensures warnings == AssetWarningsUpTo(assets, |assets|)
  {
    warnings := [];
    for i := 0 to |assets|
      invariant warnings == AssetWarningsUpTo(assets, i)
    {
      var assetWarnings := CheckAsset(assets[i], i);
      warnings := warnings + assetWarnings;
    }
  }

  /** One pass of the asset loop: the warning, if any, for asset number `i`. */
  method CheckAsset(asset: Json, i: nat) returns (warnings: seq<LottieWarning>)
    requires InspectableAsset(asset)
    ensures warnings == AssetWarning(asset, i)
  {
    warnings := [];
    var isEmbedded := EqualsNumber(Get(asset, "e", JInt(0)), 1.0);
    if HasKey(asset, "p") {
      var path := Get0(asset, "p");
      if isEmbedded && StartsWith(path.s, "data:image") {
        var base64Data := if ',' in path.s then Base64Part(path.s) else path.s;
        var decodedKb := (|base64Data| * 3) as real / 4.0 / 1024.0;
        if decodedKb > 500.0 {
          warnings := [VeryLargeEmbeddedImage(i, decodedKb)];
        } else if decodedKb > 100.0 {
          warnings := [LargeEmbeddedImage(i, decodedKb)];
        }
      } else if !isEmbedded {
        warnings := [ExternalAsset(i)];
      }
    }
  }

  // ---------------------------------------------------------------------
  // Properties
  // ---------------------------------------------------------------------

  /** The missing properties are exactly the listed keys the document lacks,
      in the order of the list. */
  lemma {:induction false} MissingPropsExact(data: Json, props: seq<string>)
    ensures forall k :: k in MissingProps(data, props) <==> k in props && !In(data, k)
    ensures IsSubsequence(MissingProps(data, props), props)
  {
    if |props| == 0 {
      EmptyIsSubsequence(props);
    } else {
      var rest := MissingProps(data, props[1..]);
      MissingPropsExact(data, props[1..]);
      assert props == [props[0]] + props[1..];
      if In(data, props[0]) {
        assert MissingProps(data, props) == rest;
        SubsequenceSkip(props[0], rest, props[1..]);
      } else {
        assert MissingProps(data, props) == [props[0]] + rest;
        SubsequenceCons(props[0], rest, props[1..]);
      }
    }
  }

  /** A parsed document passes iff it has every required property and its
      layer list is not empty; warnings play no part. */
  lemma PassesIff(data: Json)
    requires LayersTyped(data)
    ensures Errors(data) == [] <==>
            (forall k :: k in RequiredProps ==> In(data, k)) && LayerCount(data) != Some(0)
  {
    MissingPropsExact(data, RequiredProps);
    var missing := MissingProps(data, RequiredProps);
    if missing != [] {
      assert missing[0] in missing;
    }
  }

  /** The empty-layer error: reported iff `layers` is present and empty. */
  lemma NoLayersRule(data: Json)
    requires LayersTyped(data)
    ensures NoLayers in Errors(data) <==> In(data, "layers") && Len(Get0(data, "layers")) == Some(0)
    ensures |Errors(data)| <= 2
  {
  }

  /** A document that is a list or a string rather than a dict lacks every
      key the script reads (it would raise otherwise), so it fails with one
      missing-properties error, `v` among the missing. */
  lemma NonDictErrors(data: Json)
    requires VersionTyped(data) && LayersTyped(data) && !data.JObj?
    ensures "v" in MissingProps(data, RequiredProps)
    ensures Errors(data) == [MissingProperties(MissingProps(data, RequiredProps))]
  {
    MissingPropsExact(data, RequiredProps);
    assert "v" in RequiredProps;
  }

  /** Such a document gets no warning but the file-size one. */
  lemma NonDictWarnings(data: Json, sizeBytes: nat)
    requires WellTyped(data) && !data.JObj?
    ensures Warnings(data, sizeBytes) == FileSizeWarnings(sizeBytes)
  {
    assert DocumentWarnings(data) == [] && CheckedAssets(data) == [];
  }

  /** `[]` as a whole document: the script runs to its end and reports
      every required property missing, and nothing else. */
  lemma EmptyListDocument()
    ensures WellTyped(JArr([]))
    ensures Errors(JArr([])) == [MissingProperties(RequiredProps)]
    ensures Warnings(JArr([]), 0) == []
  {
    assert forall k :: !In(JArr([]), k);
    NoneMissing(JArr([]), RequiredProps);
    NonDictWarnings(JArr([]), 0);
  }

  /** A document holding none of the listed keys misses all of them. */
  lemma {:induction false} NoneMissing(data: Json, props: seq<string>)
    requires forall k :: !In(data, k)
    ensures MissingProps(data, props) == props
  {
    if |props| > 0 {
      NoneMissing(data, props[1..]);
    }
  }

  // ---------------------------------------------------------------------
  // Each rule stated over the whole warning list
  // ---------------------------------------------------------------------

  /** The rule a warning comes from, numbered in the order the script
      applies the rules. */
  function Family(w: LottieWarning): nat {
    match w
    case LowFrameRate(_) => 0
    case HighFrameRate(_) => 0
    case ShortAnimation(_) => 1
    case LongAnimation(_) => 1
    case SmallDimensions => 2
    case LargeDimensions => 2
    case ManyLayers(_) => 3
    case VeryLargeEmbeddedImage(_, _) => 4
    case LargeEmbeddedImage(_, _) => 4
    case ExternalAsset(_) => 4
    case LargeFile(_) => 5
  }

  /** The warnings come rule by rule in the script's order, and every rule
      but the per-asset one contributes at most one warning. */
  predicate Grouped(ws: seq<LottieWarning>) {
    forall p, q :: 0 <= p < q < |ws| ==>
      Family(ws[p]) < Family(ws[q]) || (Family(ws[p]) == 4 && Family(ws[q]) == 4)
  }

  predicate FamiliesIn(ws: seq<LottieWarning>, lo: nat, hi: nat) {
    forall p :: 0 <= p < |ws| ==> lo <= Family(ws[p]) < hi
  }

  lemma GroupedAppend(a: seq<LottieWarning>, b: seq<LottieWarning>, k: nat)
    requires Grouped(a) && Grouped(b)
    requires FamiliesIn(a, 0, k) && FamiliesIn(b, k, 6)
    ensures Grouped(a + b) && FamiliesIn(a + b, 0, 6)
  {
    forall p, q | 0 <= p < q < |a + b|
      ensures Family((a + b)[p]) < Family((a + b)[q]) || (Family((a + b)[p]) == 4 && Family((a + b)[q]) == 4)
    {
      if q < |a| {
        assert (a + b)[p] == a[p] && (a + b)[q] == a[q];
      } else if p >= |a| {
        assert (a + b)[p] == b[p - |a|] && (a + b)[q] == b[q - |a|];
      } else {
        assert (a + b)[p] == a[p] && (a + b)[q] == b[q - |a|];
      }
    }
  }

  /** The warnings of rule number `family`. */
  function Section(data: Json, sizeBytes: nat, family: nat): seq<LottieWarning>
    requires WellTyped(data)
  {
    if family == 0 then FrameRateWarnings(data)
    else if family == 1 then DurationWarnings(data)
    else if family == 2 then DimensionWarnings(data)
    else if family == 3 then LayerWarnings(data)
    else if family == 4 then AssetWarningsUpTo(CheckedAssets(data), |CheckedAssets(data)|)
    else FileSizeWarnings(sizeBytes)
  }

  /** Each rule's warnings belong to that rule, and only the asset rule can
      issue more than one. */
  lemma SectionShape(data: Json, sizeBytes: nat, family: nat)
    requires WellTyped(data) && family < 6
    ensures Grouped(Section(data, sizeBytes, family))
    ensures FamiliesIn(Section(data, sizeBytes, family), family, family + 1)
  {
    if family == 4 {
      AssetWarningsOrdered(CheckedAssets(data), |CheckedAssets(data)|);
    }
  }

  /** The warning list is the rules' warnings one rule after the other. */
  lemma WarningsAreSections(data: Json, sizeBytes: nat)
    requires WellTyped(data)
    ensures Warnings(data, sizeBytes) ==
              Section(data, sizeBytes, 0) + Section(data, sizeBytes, 1) + Section(data, sizeBytes, 2) +
              Section(data, sizeBytes, 3) + Section(data, sizeBytes, 4) + Section(data, sizeBytes, 5)
  {
  }

  /** The warnings come rule by rule in the script's order, with at most one
      warning from every rule but the per-asset one. */
  lemma WarningsGrouped(data: Json, sizeBytes: nat)
    requires WellTyped(data)
    ensures Grouped(Warnings(data, sizeBytes))
  {
    SectionShape(data, sizeBytes, 0);
    SectionShape(data, sizeBytes, 1);
    SectionShape(data, sizeBytes, 2);
    SectionShape(data, sizeBytes, 3);
    SectionShape(data, sizeBytes, 4);
    SectionShape(data, sizeBytes, 5);
    WarningsAreSections(data, sizeBytes);
    GroupedSections(Section(data, sizeBytes, 0), Section(data, sizeBytes, 1), Section(data, sizeBytes, 2),
                    Section(data, sizeBytes, 3), Section(data, sizeBytes, 4), Section(data, sizeBytes, 5));
  }

  lemma GroupedSections(s0: seq<LottieWarning>, s1: seq<LottieWarning>, s2: seq<LottieWarning>,
                        s3: seq<LottieWarning>, s4: seq<LottieWarning>, s5: seq<LottieWarning>)
    requires Grouped(s0) && Grouped(s1) && Grouped(s2) && Grouped(s3) && Grouped(s4) && Grouped(s5)
    requires FamiliesIn(s0, 0, 1) && FamiliesIn(s1, 1, 2) && FamiliesIn(s2, 2, 3)
    requires FamiliesIn(s3, 3, 4) && FamiliesIn(s4, 4, 5) && FamiliesIn(s5, 5, 6)
    ensures Grouped(s0 + s1 + s2 + s3 + s4 + s5)
  {
    GroupedAppend(s0, s1, 1);
    GroupedAppend(s0 + s1, s2, 2);
    GroupedAppend(s0 + s1 + s2, s3, 3);
    GroupedAppend(s0 + s1 + s2 + s3, s4, 4);
    GroupedAppend(s0 + s1 + s2 + s3 + s4, s5, 5);
  }

  /** A warning is issued iff its own rule issues it. */
  lemma InOwnSection(data: Json, sizeBytes: nat, w: LottieWarning)
    requires WellTyped(data)
    ensures Family(w) < 6
    ensures w in Warnings(data, sizeBytes) <==> w in Section(data, sizeBytes, Family(w))
  {
    WarningsAreSections(data, sizeBytes);
    forall k | 0 <= k < 6 && k != Family(w)
      ensures w !in Section(data, sizeBytes, k)
    {
      SectionShape(data, sizeBytes, k);
    }
  }

  /** The frame-rate rule: a low (high) frame-rate warning is issued iff `fr`
      is present and under 15 (over 120), and it carries that rate. */
  lemma FrameRateRule(data: Json, sizeBytes: nat, fps: real)
    requires WellTyped(data)
    ensures LowFrameRate(fps) in Warnings(data, sizeBytes) <==>
              In(data, "fr") && fps == Num(data, "fr") && fps < 15.0
    ensures HighFrameRate(fps) in Warnings(data, sizeBytes) <==>
              In(data, "fr") && fps == Num(data, "fr") && fps > 120.0
  {
    InOwnSection(data, sizeBytes, LowFrameRate(fps));
    InOwnSection(data, sizeBytes, HighFrameRate(fps));
    FrameRateSection(data, fps);
  }

  lemma FrameRateSection(data: Json, fps: real)
    requires FrameRateTyped(data)
    ensures LowFrameRate(fps) in FrameRateWarnings(data) <==>
              In(data, "fr") && fps == Num(data, "fr") && fps < 15.0
    ensures HighFrameRate(fps) in FrameRateWarnings(data) <==>
              In(data, "fr") && fps == Num(data, "fr") && fps > 120.0
  {
  }

  /** The duration rule: a short (long) animation warning is issued iff `ip`,
      `op` and `fr` are all present and `(op - ip) / fr` is under 1 (over 10)
      seconds, and it carries that duration. */
  lemma DurationRule(data: Json, sizeBytes: nat, seconds: real)
    requires WellTyped(data)
    ensures ShortAnimation(seconds) in Warnings(data, sizeBytes) <==>
              In(data, "ip") && In(data, "op") && In(data, "fr") &&
              seconds == (Num(data, "op") - Num(data, "ip")) / Num(data, "fr") && seconds < 1.0
    ensures LongAnimation(seconds) in Warnings(data, sizeBytes) <==>
              In(data, "ip") && In(data, "op") && In(data, "fr") &&
              seconds == (Num(data, "op") - Num(data, "ip")) / Num(data, "fr") && seconds > 10.0
  {
    InOwnSection(data, sizeBytes, ShortAnimation(seconds));
    InOwnSection(data, sizeBytes, LongAnimation(seconds));
    DurationSection(data, seconds);
  }

  lemma DurationSection(data: Json, seconds: real)
    requires DurationTyped(data)
    ensures ShortAnimation(seconds) in DurationWarnings(data) <==>
              In(data, "ip") && In(data, "op") && In(data, "fr") &&
              seconds == (Num(data, "op") - Num(data, "ip")) / Num(data, "fr") && seconds < 1.0
    ensures LongAnimation(seconds) in DurationWarnings(data) <==>
              In(data, "ip") && In(data, "op") && In(data, "fr") &&
              seconds == (Num(data, "op") - Num(data, "ip")) / Num(data, "fr") && seconds > 10.0
  {
  }

  /** The dimension rule, small side: issued iff both sides are present and
      either is under 100. */
  lemma SmallDimensionsRule(data: Json, sizeBytes: nat)
    requires WellTyped(data)
    ensures SmallDimensions in Warnings(data, sizeBytes) <==>
              In(data, "w") && In(data, "h") && (Num(data, "w") < 100.0 || Num(data, "h") < 100.0)
  {
    InOwnSection(data, sizeBytes, SmallDimensions);
    DimensionSection(data);
  }

  /** The dimension rule, large side: issued iff both sides are present,
      neither is under 100 and either is over 2048. */
  lemma LargeDimensionsRule(data: Json, sizeBytes: nat)
    requires WellTyped(data)
    ensures LargeDimensions in Warnings(data, sizeBytes) <==>
              In(data, "w") && In(data, "h") && Num(data, "w") >= 100.0 && Num(data, "h") >= 100.0 &&
              (Num(data, "w") > 2048.0 || Num(data, "h") > 2048.0)
  {
    InOwnSection(data, sizeBytes, LargeDimensions);
    DimensionSection(data);
  }

  lemma DimensionSection(data: Json)
    requires DimensionsTyped(data)
    ensures SmallDimensions in DimensionWarnings(data) <==>
              In(data, "w") && In(data, "h") && (Num(data, "w") < 100.0 || Num(data, "h") < 100.0)
    ensures LargeDimensions in DimensionWarnings(data) <==>
              In(data, "w") && In(data, "h") && Num(data, "w") >= 100.0 && Num(data, "h") >= 100.0 &&
              (Num(data, "w") > 2048.0 || Num(data, "h") > 2048.0)
  {
  }

  /** The layer-count rule: a many-layers warning is issued iff `layers` is
      present with more than 50 entries, and it carries that count. */
  lemma LayerRule(data: Json, sizeBytes: nat, count: nat)
    requires WellTyped(data)
    ensures ManyLayers(count) in Warnings(data, sizeBytes) <==>
              In(data, "layers") && count == Len(Get0(data, "layers")).value && count > 50
  {
    InOwnSection(data, sizeBytes, ManyLayers(count));
    LayerSection(data, count);
  }

  lemma LayerSection(data: Json, count: nat)
    requires LayersTyped(data)
    ensures ManyLayers(count) in LayerWarnings(data) <==>
              In(data, "layers") && count == Len(Get0(data, "layers")).value && count > 50
  {
  }

  /** The file-size rule: a large-file warning is issued iff the file is over
      500 KB, and it carries the size in KB. */
  lemma FileSizeRule(data: Json, sizeBytes: nat, kb: real)
    requires WellTyped(data)
    ensures LargeFile(kb) in Warnings(data, sizeBytes) <==> kb == sizeBytes as real / 1024.0 && kb > 500.0
  {
    InOwnSection(data, sizeBytes, LargeFile(kb));
  }

  /** The asset rules, for asset number `i` of the walked list: a very large
      (large) embedded-image warning iff it is an embedded `data:image` path
      decoding to over 500 KB (over 100 KB and at most 500 KB); an
      external-asset warning iff it has a path and is not embedded. */
  lemma AssetRule(data: Json, sizeBytes: nat, i: nat, kb: real)
    requires WellTyped(data)
    ensures var assets := CheckedAssets(data);
            VeryLargeEmbeddedImage(i, kb) in Warnings(data, sizeBytes) <==>
              i < |assets| && EmbeddedImage(assets[i]) &&
              kb == DecodedKb(Get0(assets[i], "p").s) && kb > 500.0
    ensures var assets := CheckedAssets(data);
            LargeEmbeddedImage(i, kb) in Warnings(data, sizeBytes) <==>
              i < |assets| && EmbeddedImage(assets[i]) &&
              kb == DecodedKb(Get0(assets[i], "p").s) && 100.0 < kb <= 500.0
    ensures var assets := CheckedAssets(data);
            ExternalAsset(i) in Warnings(data, sizeBytes) <==>
              i < |assets| && HasKey(assets[i], "p") && !IsEmbedded(assets[i])
  {
    AssetRuleFor(data, sizeBytes, VeryLargeEmbeddedImage(i, kb));
    AssetRuleFor(data, sizeBytes, LargeEmbeddedImage(i, kb));
    AssetRuleFor(data, sizeBytes, ExternalAsset(i));
    var assets := CheckedAssets(data);
    if i < |assets| {
      AssetWarningIff(assets[i], i, kb);
    }
  }

  /** The one asset's check: which warning it issues, and when. */
  lemma AssetWarningIff(asset: Json, i: nat, kb: real)
    requires InspectableAsset(asset)
    ensures VeryLargeEmbeddedImage(i, kb) in AssetWarning(asset, i) <==>
              EmbeddedImage(asset) && kb == DecodedKb(Get0(asset, "p").s) && kb > 500.0
    ensures LargeEmbeddedImage(i, kb) in AssetWarning(asset, i) <==>
              EmbeddedImage(asset) && kb == DecodedKb(Get0(asset, "p").s) && 100.0 < kb <= 500.0
    ensures ExternalAsset(i) in AssetWarning(asset, i) <==> HasKey(asset, "p") && !IsEmbedded(asset)
  {
  }

  /** An asset's check issues at most one warning, and it names that asset. */
  lemma AssetWarningShape(asset: Json, i: nat)
    requires InspectableAsset(asset)
    ensures |AssetWarning(asset, i)| <= 1
    ensures forall w :: w in AssetWarning(asset, i) ==> AssetOf(w) == i && Family(w) == 4
  {
  }

  /** An asset warning is issued iff the check of the asset it names issues it. */
  lemma AssetRuleFor(data: Json, sizeBytes: nat, w: LottieWarning)
    requires WellTyped(data) && Family(w) == 4
    ensures var assets := CheckedAssets(data);
            w in Warnings(data, sizeBytes) <==>
              AssetOf(w) < |assets| && w in AssetWarning(assets[AssetOf(w)], AssetOf(w))
  {
    InOwnSection(data, sizeBytes, w);
    AssetWarningsMember(CheckedAssets(data), |CheckedAssets(data)|, w);
  }

  /** An asset warning is among the first `n` assets' warnings iff its asset
      is one of them and that asset's own check issues it. */
  lemma AssetWarningsMember(assets: seq<Json>, n: nat, w: LottieWarning)
    requires n <= |assets| && forall i :: 0 <= i < |assets| ==> InspectableAsset(assets[i])
    requires Family(w) == 4
    ensures w in AssetWarningsUpTo(assets, n) <==>
              AssetOf(w) < n && w in AssetWarning(assets[AssetOf(w)], AssetOf(w))
  {
    var parts := seq(|assets|, j requires 0 <= j < |assets| => AssetWarning(assets[j], j));
    forall j, x | 0 <= j < |parts| && x in parts[j]
      ensures AssetOf(x) == j
    {
      AssetWarningShape(assets[j], j);
    }
    UpToIsConcat(assets, parts, n);
    ConcatMember(parts, n, w);
  }

  /** The loop's warnings are the per-asset warning lists joined in order. */
  lemma {:induction false} UpToIsConcat(assets: seq<Json>, parts: seq<seq<LottieWarning>>, n: nat)
    requires n <= |assets| == |parts| && forall i :: 0 <= i < |assets| ==> InspectableAsset(assets[i])
    requires forall j :: 0 <= j < |parts| ==> parts[j] == AssetWarning(assets[j], j)
    ensures AssetWarningsUpTo(assets, n) == Concat(parts, n)
  {
    if n > 0 {
      UpToIsConcat(assets, parts, n - 1);
    }
  }

  /** The first `n` of a list of warning lists, joined. */
  function Concat(parts: seq<seq<LottieWarning>>, n: nat): seq<LottieWarning>
    requires n <= |parts|
  {
    if n == 0 then [] else Concat(parts, n - 1) + parts[n - 1]
  }

  /** When list number `j` holds only warnings about asset `j`, a warning is
      in the joined lists iff it is in the list of its own asset. */
  lemma {:induction false} ConcatMember(parts: seq<seq<LottieWarning>>, n: nat, w: LottieWarning)
    requires n <= |parts|
    requires forall j, x :: 0 <= j < |parts| && x in parts[j] ==> AssetOf(x) == j
    ensures w in Concat(parts, n) <==> AssetOf(w) < n && w in parts[AssetOf(w)]
  {
    if n > 0 {
      ConcatMember(parts, n - 1, w);
    }
  }

  /** The base64 part is what follows the first comma of the path, or the
      whole path when it has no comma. */
  lemma Base64PartSplit(path: string)
    ensures ',' !in path ==> Base64Part(path) == path
    ensures ',' in path ==>
              exists k :: 0 <= k < |path| && ',' !in path[..k] &&
                          path == path[..k] + [','] + Base64Part(path)
  {
    match IndexOf(path, ',')
    case Some(k) =>
      assert path == path[..k] + [','] + path[k + 1..];
    case None =>
  }

  /** The size thresholds in characters of base64 text: above 500 KB means
      more than 682666 characters, above 100 KB more than 136533. */
  lemma DecodedSizeThresholds(path: string)
    ensures DecodedKb(path) > 500.0 <==> |Base64Part(path)| > 682666
    ensures DecodedKb(path) > 100.0 <==> |Base64Part(path)| > 136533
  {
    var n := |Base64Part(path)|;
    assert DecodedKb(path) == (n * 3) as real / 4096.0;
  }

  /** Each asset gives at most one warning, and the warnings name the assets
      in increasing order. */
  lemma AssetWarningsOrdered(assets: seq<Json>, n: nat)
    requires n <= |assets| && forall i :: 0 <= i < |assets| ==> InspectableAsset(assets[i])
    ensures |AssetWarningsUpTo(assets, n)| <= n
    ensures forall p :: 0 <= p < |AssetWarningsUpTo(assets, n)| ==> AssetOf(AssetWarningsUpTo(assets, n)[p]) < n
    ensures forall p, q :: 0 <= p < q < |AssetWarningsUpTo(assets, n)| ==>
              AssetOf(AssetWarningsUpTo(assets, n)[p]) < AssetOf(AssetWarningsUpTo(assets, n)[q])
    ensures Grouped(AssetWarningsUpTo(assets, n)) && FamiliesIn(AssetWarningsUpTo(assets, n), 4, 5)
  {
    var parts := seq(|assets|, j requires 0 <= j < |assets| => AssetWarning(assets[j], j));
    forall j | 0 <= j < |parts|
      ensures |parts[j]| <= 1 && forall x :: x in parts[j] ==> AssetOf(x) == j && Family(x) == 4
    {
      AssetWarningShape(assets[j], j);
    }
    UpToIsConcat(assets, parts, n);
    ConcatOrdered(parts, n);
  }

  /** Joining lists of at most one asset warning each, list `j` about asset
      `j`, gives at most one warning per list, in increasing asset order. */
  lemma {:induction false} ConcatOrdered(parts: seq<seq<LottieWarning>>, n: nat)
    requires n <= |parts|
    requires forall j :: 0 <= j < |parts| ==>
               |parts[j]| <= 1 && forall x :: x in parts[j] ==> AssetOf(x) == j && Family(x) == 4
    ensures |Concat(parts, n)| <= n
    ensures forall p :: 0 <= p < |Concat(parts, n)| ==> AssetOf(Concat(parts, n)[p]) < n
    ensures forall p, q :: 0 <= p < q < |Concat(parts, n)| ==>
              AssetOf(Concat(parts, n)[p]) < AssetOf(Concat(parts, n)[q])
    ensures Grouped(Concat(parts, n)) && FamiliesIn(Concat(parts, n), 4, 5)
  {
    if n > 0 {
      ConcatOrdered(parts, n - 1);
      var prev := Concat(parts, n - 1);
      var cur := Concat(parts, n);
      assert forall p :: 0 <= p < |prev| ==> cur[p] == prev[p];
      assert forall p :: |prev| <= p < |cur| ==> cur[p] in parts[n - 1];
    }
  }

  /** The asset a warning is about (only asset warnings have one; others give 0). */
  function AssetOf(w: LottieWarning): nat {
    match w
    case VeryLargeEmbeddedImage(i, _) => i
    case LargeEmbeddedImage(i, _) => i
    case ExternalAsset(i) => i
    case _ => 0
  }
}
