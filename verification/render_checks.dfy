/**
 * The checks around rendering (scripts/render_lottie.py): that every
 * external asset a Lottie file references exists, that the rendered file
 * is not suspiciously small, and the out-point clamp of preview mode.
 *
 * The file system is an input: the outcome of reading and parsing the
 * Lottie file, its directory, the set of paths that exist, and the size
 * of the rendered file when there is one.
 */
module RenderChecks {
  import opened Util
  import opened Json

  /** What reading and parsing the Lottie file gave. */
  datatype LoadedLottie = InvalidJson | ReadFailed | Parsed(data: Json)

  /** `lottie_dir / asset_path`: an absolute path replaces the directory,
      an empty one leaves it as it is. */
  function JoinPath(dir: string, path: string): string {
    if StartsWith(path, "/") then path
    else if path == "" then dir
    else dir + "/" + path
  }

  /** `data.get('assets', [])`. */
  function AssetsOf(data: Json): Json
    requires data.JObj?
  {
    Get(data, "assets", JArr([]))
  }

  /** An external asset: `asset.get('e') == 0`. */
  predicate IsExternal(asset: Json)
    requires asset.JObj?
  {
    EqualsNumber(Get0(asset, "e"), 0.0)
  }

  /** `asset.get('p', '')`, for an asset whose path is a string. */
  function PathOf(asset: Json): string
    requires asset.JObj? && Get(asset, "p", JStr("")).JStr?
  {
    Get(asset, "p", JStr("")).s
  }

  /** An asset the loop can handle: a dict whose path, when it is looked
      at, is a string. */
  predicate CheckableAsset(asset: Json) {
    asset.JObj? && (IsExternal(asset) ==> Get(asset, "p", JStr("")).JStr?)
  }

  /** The document is a dict whose assets, when there are any, the loop can handle. */
  predicate CheckableDocument(data: Json) {
    data.JObj? &&
    (Truthy(AssetsOf(data)) ==>
       Elements(AssetsOf(data)).Some? &&
       forall a :: a in Elements(AssetsOf(data)).value ==> CheckableAsset(a))
  }

  /** The asset must be found on disk and is not: external, not a data URI,
      and its resolved path does not exist. */
  predicate IsMissing(asset: Json, dir: string, existing: set<string>)
    requires CheckableAsset(asset)
  {
    IsExternal(asset) && !StartsWith(PathOf(asset), "data:") && JoinPath(dir, PathOf(asset)) !in existing
  }

  /** The report line for a missing asset. */
  function MissingLine(asset: Json, dir: string): string
    requires CheckableAsset(asset) && IsExternal(asset)
  {
    "  - " + PathOf(asset) + " (expected at: " + JoinPath(dir, PathOf(asset)) + ")"
  }

  /** The report lines for the missing assets among the first `n`, in order. */
  function MissingLines(assets: seq<Json>, n: nat, dir: string, existing: set<string>): seq<string>
    requires n <= |assets| && forall a :: a in assets ==> CheckableAsset(a)
  {
    if n == 0 then []
    else
      var asset := assets[n - 1];
      MissingLines(assets, n - 1, dir, existing) + (if IsMissing(asset, dir, existing) then [MissingLine(asset, dir)] else [])
  }

  /** `"\n".join(lines)`. */
  function JoinLines(lines: seq<string>): string {
    if |lines| == 0 then ""
    else if |lines| == 1 then lines[0]
    else lines[0] + "\n" + JoinLines(lines[1..])
  }

  /** `validate_assets(lottie_path)`: reports every external asset whose
      file does not exist. */
  method ValidateAssets(file: LoadedLottie, dir: string, existing: set<string>) returns (ok: bool, message: string)
    requires file.Parsed? ==> CheckableDocument(file.data)
    ensures file.InvalidJson? ==> !ok && StartsWith(message, "Invalid JSON: ")
    ensures file.ReadFailed? ==> !ok && StartsWith(message, "Failed to read file: ")
    ensures file.Parsed? && !Truthy(AssetsOf(file.data)) ==> ok && message == ""
    ensures file.Parsed? && Truthy(AssetsOf(file.data)) ==>
              var assets := Elements(AssetsOf(file.data)).value;
              (ok <==> forall i :: 0 <= i < |assets| ==> !IsMissing(assets[i], dir, existing)) &&
              message == (if ok then "" else "Missing external assets:\n" + JoinLines(MissingLines(assets, |assets|, dir, existing)))
  {
    match file
    case InvalidJson =>
      return false, "Invalid JSON: ";
    case ReadFailed =>
      return false, "Failed to read file: ";
    case Parsed(data) =>
      var assets := AssetsOf(data);
      if !Truthy(assets) {
        return true, "";
      }
      var items := Elements(assets).value;
      var missingAssets: seq<string> := [];
      for i := 0 to |items|
        invariant missingAssets == MissingLines(items, i, dir, existing)
      {
        var asset := items[i];
        assert asset in items;
        if EqualsNumber(Get0(asset, "e"), 0.0) {
          var assetPath := Get(asset, "p", JStr("")).s;
          if StartsWith(assetPath, "data:") {
            continue;
          }
          var fullPath := JoinPath(dir, assetPath);
          if fullPath !in existing {
            missingAssets := missingAssets + ["  - " + assetPath + " (expected at: " + fullPath + ")"];
          }
        }
      }
      MissingLinesEmpty(items, |items|, dir, existing);
      if missingAssets != [] {
        return false, "Missing external assets:\n" + JoinLines(missingAssets);
      }
      return true, "";
  }

  /** `verify_output(output_path)`, given the size of the output file when it exists. */
  function VerifyOutput(size: Option<nat>): (result: (bool, string))
    ensures result.0 <==> size.Some? && size.value >= 1024
    ensures result.0 <==> result.1 == ""
  {
    match size
    case None => (false, "Output file was not created")
    case Some(n) =>
      if n < 1024 then (false, "Output file is suspiciously small (" + NatToString(n) + " bytes) - likely blank or corrupted")
      else (true, "")
  }

  /** `min(preview_frames, data.get('op', 180))`: Python's `min` keeps its
      first argument unless the second is smaller. */
  function PreviewOp(data: Json, previewFrames: int): Json
    requires data.JObj? && IsNumber(Get(data, "op", JInt(180)))
  {
    var originalOp := Get(data, "op", JInt(180));
    if NumValue(originalOp) < previewFrames as real then originalOp else JInt(previewFrames)
  }

  /** Preview mode: with a non-zero frame count, `op` is set in place to the
      clamped out-point; every other entry keeps its value and place. */
  method ApplyPreview(lottie: JsonDict, previewFrames: Option<int>)
    requires IsNumber(Get(lottie.Value(), "op", JInt(180)))
    modifies lottie
    ensures previewFrames.None? || previewFrames.value == 0 ==> lottie.fields == old(lottie.fields)
    ensures previewFrames.Some? && previewFrames.value != 0 ==>
              lottie.fields == SetKey(old(lottie.fields), "op", PreviewOp(old(lottie.Value()), previewFrames.value))
  {
    if previewFrames.Some? && previewFrames.value != 0 {
      var originalOp := Get(lottie.Value(), "op", JInt(180));
      var previewOp := if NumValue(originalOp) < previewFrames.value as real then originalOp else JInt(previewFrames.value);
      lottie.Set("op", previewOp);
    }
  }

  // ---------------------------------------------------------------------
  // Properties
  // ---------------------------------------------------------------------

  /** No report line means no missing asset, and the other way round. */
  lemma {:induction false} MissingLinesEmpty(assets: seq<Json>, n: nat, dir: string, existing: set<string>)
    requires n <= |assets| && forall a :: a in assets ==> CheckableAsset(a)
    ensures MissingLines(assets, n, dir, existing) == [] <==>
            forall i :: 0 <= i < n ==> !IsMissing(assets[i], dir, existing)
  {
    if n > 0 {
      MissingLinesEmpty(assets, n - 1, dir, existing);
    }
  }

  /** The missing assets are listed in input order, each once, and none is
      left out. */
  lemma {:induction false} MissingIndicesExact(assets: seq<Json>, n: nat, dir: string, existing: set<string>)
    requires n <= |assets| && forall a :: a in assets ==> CheckableAsset(a)
    ensures forall p :: 0 <= p < |MissingIndices(assets, n, dir, existing)| ==>
              MissingIndices(assets, n, dir, existing)[p] < n &&
              IsMissing(assets[MissingIndices(assets, n, dir, existing)[p]], dir, existing)
    ensures forall i :: 0 <= i < n && IsMissing(assets[i], dir, existing) ==> i in MissingIndices(assets, n, dir, existing)
    ensures forall p, q :: 0 <= p < q < |MissingIndices(assets, n, dir, existing)| ==>
              MissingIndices(assets, n, dir, existing)[p] < MissingIndices(assets, n, dir, existing)[q]
  {
    if n > 0 {
      MissingIndicesExact(assets, n - 1, dir, existing);
      var prev := MissingIndices(assets, n - 1, dir, existing);
      var cur := MissingIndices(assets, n, dir, existing);
      assert forall p :: 0 <= p < |prev| ==> cur[p] == prev[p];
      assert forall p :: |prev| <= p < |cur| ==> cur[p] == n - 1;
    }
  }

  /** The report has one line per missing asset, line `p` naming the asset
      at position `p` of the missing ones. */
  lemma {:induction false} MissingLinesMatch(assets: seq<Json>, n: nat, dir: string, existing: set<string>)
    requires n <= |assets| && forall a :: a in assets ==> CheckableAsset(a)
    ensures |MissingLines(assets, n, dir, existing)| == |MissingIndices(assets, n, dir, existing)|
    ensures forall p :: 0 <= p < |MissingIndices(assets, n, dir, existing)| ==>
              MissingIndices(assets, n, dir, existing)[p] < n &&
              assets[MissingIndices(assets, n, dir, existing)[p]] in assets &&
              IsExternal(assets[MissingIndices(assets, n, dir, existing)[p]]) &&
              MissingLines(assets, n, dir, existing)[p] == MissingLine(assets[MissingIndices(assets, n, dir, existing)[p]], dir)
  {
    if n > 0 {
      MissingLinesMatch(assets, n - 1, dir, existing);
      var prev := MissingIndices(assets, n - 1, dir, existing);
      var cur := MissingIndices(assets, n, dir, existing);
      var lines := MissingLines(assets, n, dir, existing);
      var prevLines := MissingLines(assets, n - 1, dir, existing);
      assert forall p :: 0 <= p < |prev| ==> cur[p] == prev[p] && lines[p] == prevLines[p];
      if IsMissing(assets[n - 1], dir, existing) {
        assert cur[|prev|] == n - 1;
        assert lines[|prev|] == MissingLine(assets[n - 1], dir);
      }
    }
  }

  /** The positions of the missing assets among the first `n`. */
  function MissingIndices(assets: seq<Json>, n: nat, dir: string, existing: set<string>): seq<nat>
    requires n <= |assets| && forall a :: a in assets ==> CheckableAsset(a)
  {
    if n == 0 then []
    else MissingIndices(assets, n - 1, dir, existing) + (if IsMissing(assets[n - 1], dir, existing) then [n - 1] else [])
  }

  /** Only external assets can be reported: one with `e` missing or 1 never is. */
  lemma EmbeddedNeverMissing(asset: Json, dir: string, existing: set<string>)
    requires CheckableAsset(asset)
    requires !HasKey(asset, "e") || EqualsNumber(Get0(asset, "e"), 1.0)
    ensures !IsMissing(asset, dir, existing)
  {
  }

  /** A larger output file never fails the size check where a smaller one passed. */
  lemma VerifyOutputMonotone(a: nat, b: nat)
    requires a <= b && VerifyOutput(Some(a)).0
    ensures VerifyOutput(Some(b)).0
  {
  }

  /** The clamped out-point is the smaller of the two, and is one of them. */
  lemma PreviewOpIsMin(data: Json, previewFrames: int)
    requires data.JObj? && IsNumber(Get(data, "op", JInt(180)))
    ensures IsNumber(PreviewOp(data, previewFrames))
    ensures NumValue(PreviewOp(data, previewFrames)) <= previewFrames as real
    ensures NumValue(PreviewOp(data, previewFrames)) <= NumValue(Get(data, "op", JInt(180)))
    ensures PreviewOp(data, previewFrames) == Get(data, "op", JInt(180)) || PreviewOp(data, previewFrames) == JInt(previewFrames)
  {
  }

  /** Clamping keeps every other entry and the order of the keys. */
  lemma PreviewKeepsOtherEntries(fields: seq<(string, Json)>, previewFrames: int)
    requires IsNumber(Get(JObj(fields), "op", JInt(180)))
    ensures var after := SetKey(fields, "op", PreviewOp(JObj(fields), previewFrames));
            (forall k :: k != "op" ==> Lookup(after, k) == Lookup(fields, k)) &&
            Keys(after) == if "op" in Keys(fields) then Keys(fields) else Keys(fields) + ["op"]
  {
    SetKeyKeepsOrder(fields, "op", PreviewOp(JObj(fields), previewFrames));
  }
}
