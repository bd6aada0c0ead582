/**
 * The decision logic of the logo validator (scripts/validate_logo.py):
 * which files pass, which errors and warnings the `info` record carries.
 *
 * The file system and Pillow are inputs: whether the file exists, its
 * suffix and size, the text read from an SVG (absent when reading it
 * raises) and what Pillow reports about a raster image (absent when
 * `Image.open` raises).
 */
module LogoValidator {
  import opened Util

  /** What Pillow reports about an opened image: `format`, `size`, `mode`
      and the keys of `info`. */
  datatype RasterImage = RasterImage(format: string, width: int, height: int, mode: string, infoKeys: set<string>)

  datatype LogoFile = LogoFile(
    present: bool,
    suffix: string,
    sizeBytes: nat,
    svgText: Option<string>,
    raster: Option<RasterImage>)

  datatype LogoError = CannotReadSvg | NotSvg | CannotReadImage | UnsupportedFormat(ext: string)

  datatype LogoWarning =
    | NoTransparency(mode: string)
    | SmallDimensions(width: int, height: int)
    | VeryLargeDimensions(width: int, height: int)
    | LargeFileSize(mb: real)

  /** The returned `info`: a bare error for a missing file, otherwise the
      fields the script fills in. */
  datatype LogoInfo =
    | FileNotFound
    | Details(sizeBytes: nat, format: Option<string>, dimensions: Option<(int, int)>,
              hasAlpha: bool, mode: Option<string>, passes: bool,
              warnings: seq<LogoWarning>, errors: seq<LogoError>)

  const RasterExtensions: seq<string> := [".png", ".jpg", ".jpeg"]

  /** `f.read(1000)`: the first 1000 characters of the text. */
  function SvgHead(text: string): (head: string)
    ensures |head| <= 1000 && IsPrefix(head, text)
  {
    if |text| <= 1000 then text else text[..1000]
  }

  predicate IsPrefix(head: string, text: string) {
    |head| <= |text| && text[..|head|] == head
  }

  /** `'<svg' in content.lower()`. */
  predicate LooksLikeSvg(text: string) {
    ContainsSubstring(Lower(SvgHead(text)), "<svg")
  }

  /** `img.mode in ('RGBA', 'LA', 'PA') or (img.mode == 'P' and 'transparency' in img.info)`. */
  predicate HasAlpha(img: RasterImage) {
    img.mode in ["RGBA", "LA", "PA"] || (img.mode == "P" && "transparency" in img.infoKeys)
  }

  /** The file size in MB (of 1024 * 1024 bytes). */
  function SizeMb(sizeBytes: nat): real {
    sizeBytes as real / 1048576.0
  }

  /** The warnings for a readable raster image: transparency, then
      dimensions, then file size. */
  function RasterWarnings(img: RasterImage, sizeBytes: nat): seq<LogoWarning> {
    (if HasAlpha(img) then [] else [NoTransparency(img.mode)]) +
    (if img.width < 100 || img.height < 100 then [SmallDimensions(img.width, img.height)]
     else if img.width > 4096 || img.height > 4096 then [VeryLargeDimensions(img.width, img.height)]
     else []) +
    (if SizeMb(sizeBytes) > 10.0 then [LargeFileSize(SizeMb(sizeBytes))] else [])
  }

  /** When a logo is ready for animation: it exists, and it is either an
      SVG whose opening text holds an `<svg` tag or a raster image Pillow
      can open. */
  predicate LogoPasses(file: LogoFile) {
    var ext := Lower(file.suffix);
    file.present &&
    ((ext == ".svg" && file.svgText.Some? && LooksLikeSvg(file.svgText.value)) ||
     (ext in RasterExtensions && file.raster.Some?))
  }

  /** `validate_logo(path)`: fills in the `info` record along the branch the
      lower-cased suffix selects. */
  method ValidateLogo(file: LogoFile) returns (passes: bool, info: LogoInfo)
    ensures passes <==> LogoPasses(file)
    ensures !file.present <==> info == FileNotFound
    ensures info.Details? ==> info.passes == passes && info.sizeBytes == file.sizeBytes
    ensures info.Details? ==> (passes <==> info.errors == [])
    ensures info.Details? ==> |info.errors| <= 1
    ensures file.present && Lower(file.suffix) == ".svg" ==>
              info.warnings == [] && !info.hasAlpha && info.dimensions.None? &&
              (file.svgText.None? ==> info.errors == [CannotReadSvg]) &&
              (file.svgText.Some? && !LooksLikeSvg(file.svgText.value) ==> info.errors == [NotSvg]) &&
              (passes ==> info.format == Some("SVG"))
    ensures file.present && Lower(file.suffix) in RasterExtensions ==>
              match file.raster
              case None => info.errors == [CannotReadImage] && info.warnings == []
              case Some(img) =>
                info.format == Some(img.format) && info.dimensions == Some((img.width, img.height)) &&
                info.mode == Some(img.mode) && info.hasAlpha == HasAlpha(img) &&
                info.warnings == RasterWarnings(img, file.sizeBytes)
    ensures file.present && Lower(file.suffix) != ".svg" && Lower(file.suffix) !in RasterExtensions ==>
              info.errors == [UnsupportedFormat(Lower(file.suffix))] && info.warnings == []
  {
    if !file.present {
      return false, FileNotFound;
    }
    var format: Option<string> := None;
    var dimensions: Option<(int, int)> := None;
    var hasAlpha := false;
    var mode: Option<string> := None;
    passes := true;
    var warnings: seq<LogoWarning> := [];
    var errors: seq<LogoError> := [];

    var ext := Lower(file.suffix);
    if ext == ".svg" {
      match file.svgText
      case None =>
        errors := errors + [CannotReadSvg];
        passes := false;
      case Some(text) =>
        var content := SvgHead(text);
        if !ContainsSubstring(Lower(content), "<svg") {
          errors := errors + [NotSvg];
          passes := false;
        } else {
          format := Some("SVG");
        }
      info := Details(file.sizeBytes, format, dimensions, hasAlpha, mode, passes, warnings, errors);
      return passes, info;
    } else if ext in RasterExtensions {
      match file.raster
      case None =>
        errors := errors + [CannotReadImage];
        passes := false;
        info := Details(file.sizeBytes, format, dimensions, hasAlpha, mode, passes, warnings, errors);
        return false, info;
      case Some(img) =>
        format := Some(img.format);
        dimensions := Some((img.width, img.height));
        mode := Some(img.mode);
        hasAlpha := img.mode in ["RGBA", "LA", "PA"] || (img.mode == "P" && "transparency" in img.infoKeys);
        var width, height := img.width, img.height;
        if !hasAlpha {
          warnings := warnings + [NoTransparency(img.mode)];
        }
        if width < 100 || height < 100 {
          warnings := warnings + [SmallDimensions(width, height)];
        } else if width > 4096 || height > 4096 {
          warnings := warnings + [VeryLargeDimensions(width, height)];
        }
        var fileSizeMb := file.sizeBytes as real / 1048576.0;
        if fileSizeMb > 10.0 {
          warnings := warnings + [LargeFileSize(fileSizeMb)];
        }
    } else {
      errors := errors + [UnsupportedFormat(ext)];
      passes := false;
      info := Details(file.sizeBytes, format, dimensions, hasAlpha, mode, passes, warnings, errors);
      return false, info;
    }
    info := Details(file.sizeBytes, format, dimensions, hasAlpha, mode, passes, warnings, errors);
  }

  // ---------------------------------------------------------------------
  // Properties
  // ---------------------------------------------------------------------

  /** Characters `k` to `k + 3` of the text lie within the first 1000 and,
      lower-cased, spell `<svg`. */
  predicate SvgTagAt(text: string, k: int) {
    0 <= k && k + 4 <= |text| && k + 4 <= 1000 && Lower(text[k..k + 4]) == "<svg"
  }

  /** The SVG test is case-insensitive: it holds exactly when some four
      characters among the first 1000, lower-cased, spell `<svg`. */
  lemma SvgTagAnyCase(text: string)
    ensures LooksLikeSvg(text) <==> exists k :: SvgTagAt(text, k)
  {
    var head := SvgHead(text);
    ContainsSubstringAt(Lower(head), "<svg");
    if LooksLikeSvg(text) {
      var k :| OccursAt(Lower(head), "<svg", k);
      SliceLower(head, text, k);
      assert SvgTagAt(text, k);
    }
    if exists k :: SvgTagAt(text, k) {
      var k :| SvgTagAt(text, k);
      SliceLower(head, text, k);
      assert OccursAt(Lower(head), "<svg", k);
    }
  }

  /** Lower-casing four characters of the head is lower-casing them in the text. */
  lemma SliceLower(head: string, text: string, k: int)
    requires IsPrefix(head, text) && 0 <= k && k + 4 <= |head|
    ensures Lower(head)[k..k + 4] == Lower(text[k..k + 4])
  {
    LowerSlice(head, k, k + 4);
    assert head[k..k + 4] == text[..|head|][k..k + 4] == text[k..k + 4];
  }

  /** An `<svg` tag that only starts after the first 1000 characters is not seen. */
  lemma LateSvgTagIgnored(prefix: string, rest: string)
    requires |prefix| >= 1000 && forall c :: c in prefix ==> c != '<'
    ensures !LooksLikeSvg(prefix + rest)
  {
    var text := prefix + rest;
    forall k | 0 <= k && k + 4 <= |text| && k + 4 <= 1000
      ensures !SvgTagAt(text, k)
    {
      assert text[k..k + 4][0] == prefix[k];
      assert prefix[k] in prefix;
      assert Lower(text[k..k + 4])[0] != '<';
    }
    SvgTagAnyCase(text);
  }

  /** The extension is compared without regard to case: two files that
      differ only in the case of their suffix get the same verdict. */
  lemma {:induction false} SuffixCaseIgnored(file: LogoFile, suffix: string)
    requires Lower(suffix) == Lower(file.suffix)
    ensures LogoPasses(file.(suffix := suffix)) == LogoPasses(file)
  {
  }

  /** A readable raster image passes, whatever warnings it draws. */
  lemma ReadableRasterPasses(file: LogoFile)
    requires file.present && Lower(file.suffix) in RasterExtensions && file.raster.Some?
    ensures LogoPasses(file)
    ensures |RasterWarnings(file.raster.value, file.sizeBytes)| <= 3
  {
  }

  /** The size warning starts above 10 MB, that is above 10485760 bytes. */
  lemma LargeFileThreshold(sizeBytes: nat)
    ensures SizeMb(sizeBytes) > 10.0 <==> sizeBytes > 10485760
  {
  }
}
