# Lottie animation tooling — a verified model of the checking scripts

The repository is a toolkit for turning a logo into a Lottie animation. It
includes a set of command-line scripts that inspect and transform Lottie JSON
documents and logo files. This project models the decision logic of seven of
those scripts:

| script | modelled by |
|---|---|
| `scripts/validate_loop.py` — does every animated transform channel end where it starts? | `loop_validator.dfy` (module `LoopValidator`) |
| `scripts/optimize_lottie.py` — strip metadata, round numbers, drop empty containers | `optimizer.dfy` (module `Optimizer`) |
| `scripts/verify_animation.py` — layer count, unique asset references, timing, assets, size, properties | `animation_verifier.dfy` (module `AnimationVerifier`) |
| `scripts/validate_lottie.py` — required properties, errors and warnings of a Lottie file | `lottie_validator.dfy` (module `LottieValidator`) |
| `scripts/extract_svg_elements.py` — collect the paths, groups and texts of an SVG | `svg_extractor.dfy` (module `SvgExtractor`) |
| `scripts/render_lottie.py` — asset checks and output checks around rendering | `render_checks.dfy` (module `RenderChecks`) |
| `scripts/validate_logo.py` — is a logo file a readable SVG, PNG or JPEG? | `logo_validator.dfy` (module `LogoValidator`) |

Two shared modules hold the rest:

- `json.dfy` (module `Json`) holds parsed JSON values and the Python operations
  the scripts apply to them:
  - truthiness, `==` (numbers by value, dicts regardless of entry order);
  - `dict.get`, `in`, iteration and `len`;
  - a `JsonDict` class for the dicts the scripts update in place (`pop`, item
    assignment).
- `util.dfy` (module `Util`) holds `Option`, the decimal printing of naturals,
  ASCII lower-casing, substring search and the subsequence relation.

How the model reads the Python code:

- The scripts' own data flow is modelled. Anything outside it becomes an
  input: file contents, file existence, image metadata, sizes on disk and the
  rounding function.
- Mutating loops are `method`s with loop invariants. Each is proved equal to
  a specification function, and the properties are proved about those
  functions as lemmas.
- Python exceptions are modelled in one of three ways:
  - where the script catches them, as error results;
  - where they escape in `validate_loop` and in `verify_animation`, as an
    explicit outcome;
  - otherwise as preconditions saying the document has the shape the script
    reads without raising.

## Model

| member | source | states |
|---|---|---|
| LoopValidator.ChannelIndex | scripts/validate_loop.py:64 | each of the four channels has a position in the fixed visiting order Position, Scale, Rotation, Opacity |
| LoopValidator.Float | scripts/validate_loop.py:112 | `float()` succeeds exactly on numbers (bools included) and returns their value; strings raise an uncaught error; containers and None raise a caught TypeError |
| LoopValidator.Mod360 | scripts/validate_loop.py:142 | Python's floored `% 360` on reals: the result lies in [0, 360) and differs from the input by a whole number of turns |
| LoopValidator.Prefixed | scripts/validate_loop.py:128 | the layer's issues, in order, each tagged with the layer name |
| LoopValidator.RotationMatchesSymmetric | scripts/validate_loop.py:133-143 | comparing rotations does not depend on which value is first |
| LoopValidator.Mod360OfTurns | scripts/validate_loop.py:142 | a whole number of turns is 0 modulo 360 |
| LoopValidator.RotationMatchesIffNearFullTurn | scripts/validate_loop.py:141-143 | for a tolerance in [0, 180), two numeric rotations match iff their difference is within the tolerance of a whole number of turns |
| LoopValidator.FullTurnsMatch | scripts/validate_loop.py:136-143 | values a whole number of turns apart match, as scalars and as one-element lists |
| LoopValidator.RotationExamples | scripts/validate_loop.py:141-143 | 0° matches 360° and −360°, 10° matches 370°, and 0° does not match 180° |
| LoopValidator.ValuesMatchLengthMismatch | scripts/validate_loop.py:148-150 | lists of different lengths never match |
| LoopValidator.ValuesMatchComponentwise | scripts/validate_loop.py:148-151 | equal-length numeric lists match iff every component pair is within the tolerance |
| LoopValidator.AllWithinComponentwise | scripts/validate_loop.py:151 | the `all(...)` over the zipped lists holds iff every pair is within the tolerance |
| LoopValidator.ValuesMatchListVersusNumber | scripts/validate_loop.py:152-155 | a list never matches a number, in either order |
| LoopValidator.StaticChannelSkipped | scripts/validate_loop.py:64-83 | a channel that is absent, not a dict, not animated (`a` missing or 0), without `k`, or with fewer than two keyframes is skipped |
| LoopValidator.KeyframeEndsFallback | scripts/validate_loop.py:91-104 | a keyframe's value is its truthy `s`, else its `e`; when the keyframe has no `e` and a falsy `s`, the channel is skipped whichever end it is |
| LoopValidator.LayerWithoutTransform | scripts/validate_loop.py:53-59 | a layer without `ks` contributes no issue; an unnamed layer is called `Layer i` |
| LoopValidator.ChannelIssuesAreMismatches | scripts/validate_loop.py:64-124 | a layer's issues are exactly its mismatching channels, in channel order |
| LoopValidator.ScanStepShape | scripts/validate_loop.py:50-128 | one layer iteration: a layer with issues adds one analysis entry and its prefixed issues; a layer without issues changes nothing |
| LoopValidator.ScanUpToStep | scripts/validate_loop.py:50 | the state after `n` layers is one more iteration on the state after `n - 1` layers |
| LoopValidator.ScanIssuesFlatten | scripts/validate_loop.py:126-128 | the issue list is always the layer analysis flattened, with layer-name prefixes |
| LoopValidator.ScanAnalysisEntries | scripts/validate_loop.py:51-55 | every analysis entry names one of the layers scanned so far, with that layer's name and exactly that layer's issues |
| LoopValidator.ScanAnalysisOrdered | scripts/validate_loop.py:50 | analysis entries appear in increasing layer order |
| LoopValidator.LayerIssuesIffMismatch | scripts/validate_loop.py:64-127 | a layer has issues iff one of its channels mismatches |
| LoopValidator.NoMismatchUpToAll | scripts/validate_loop.py:50 | no mismatch in the first `n` layers iff no mismatch in each of them |
| LoopValidator.ScanIssuesIffMismatch | scripts/validate_loop.py:50-128 | after `n` layers there is no issue iff none of those layers has a mismatching channel |
| LoopValidator.PerfectLoopIffNoMismatch | scripts/validate_loop.py:116-130 | the document is a perfect loop iff no channel of any layer mismatches |
| LoopValidator.CrashPersists | scripts/validate_loop.py:50 | once an uncaught error is raised in the layer loop, the whole scan has raised |
| LoopValidator.ChannelCrashPersists | scripts/validate_loop.py:64 | once an uncaught error is raised in the channel loop, the layer has raised |
| LoopValidator.CheckLayerChannels | scripts/validate_loop.py:64-124 | the channel loop computes the layer's verdict: its issues, or an uncaught error |
| LoopValidator.ValidateLoop | scripts/validate_loop.py:46-130 | a document of any JSON type: a dict, list or string without `layers` is an error; None, a boolean or a number raises at the `in` test; a dict with `layers` gives the scan of its layers; a report comes only from a dict and is a perfect loop iff its issue list is empty |
| LoopValidator.NonDictDocuments | scripts/validate_loop.py:46-50 | a list or string without a `layers` item or substring has no layers; a list holding the string `layers` raises when indexed; a number raises at the `in` test |
| Optimizer.RoundValuesSameShape | scripts/optimize_lottie.py:87-96 | rounding keeps the document's shape: same keys in the same order, same list lengths, floats stay floats and every other leaf is unchanged |
| Optimizer.RoundValuesIdentity | scripts/optimize_lottie.py:87-96 | with a rounding that changes nothing, the document is unchanged |
| Optimizer.RoundValuesIdempotent | scripts/optimize_lottie.py:87-96 | rounding twice with an idempotent rounding equals rounding once |
| Optimizer.CleanedIsClean | scripts/optimize_lottie.py:99-115 | after `_remove_empty`, no dict value is None, `{}` or `[]`, and no list item is None, at any depth |
| Optimizer.CleanedOfClean | scripts/optimize_lottie.py:99-115 | a clean document is returned unchanged |
| Optimizer.CleanedIdempotent | scripts/optimize_lottie.py:99-115 | `_remove_empty` is idempotent |
| Optimizer.CleanedKeysSubsequence | scripts/optimize_lottie.py:101-111 | the cleaned dict's keys are a subsequence of the input's keys: none added, order kept |
| Optimizer.CleanedEntriesMembers | scripts/optimize_lottie.py:103-107 | an entry is in the cleaned dict iff the input has that key with a value whose cleaned form is kept |
| Optimizer.CleanedItemsAreNonNull | scripts/optimize_lottie.py:113 | a cleaned list holds exactly the non-None items, each cleaned, in order |
| Optimizer.NonNull | scripts/optimize_lottie.py:113 | the non-None items of a list, in order |
| Optimizer.RemoveEmpty | scripts/optimize_lottie.py:99-115 | the recursive walk computes `Cleaned` |
| Optimizer.RemoveEmptyEntries | scripts/optimize_lottie.py:101-111 | the dict loop builds `cleaned` entry by entry and returns the cleaned dict |
| Optimizer.RemoveEmptyItems | scripts/optimize_lottie.py:112-113 | the list branch returns the cleaned non-None items |
| Optimizer.RemoveKeys | scripts/optimize_lottie.py:57-58 | popping a list of keys removes each of them, leaves every other key's value as it was, and keeps the remaining entries in their order |
| Optimizer.StripMetadata | scripts/optimize_lottie.py:55-58 | the metadata loop pops `meta`, `metadata`, `description`, `generator` and `keywords` from the dict in place |
| Optimizer.OptimizeDocument | scripts/optimize_lottie.py:54-64 | the optimised document is metadata removal (when enabled), then rounding, then empty removal |
| Optimizer.OptimizedProperties | scripts/optimize_lottie.py:54-64 | the optimised document is clean; with metadata removal on, it is a dict that holds none of the metadata keys and no key the input lacked |
| AnimationVerifier.CheckLayerCount | scripts/verify_animation.py:62-76 | with no (or zero) expected count the check passes; otherwise it passes iff the layer count equals the expected one |
| AnimationVerifier.LayerRefs | scripts/verify_animation.py:85-86 | the `refId` of every layer, in order |
| AnimationVerifier.TruthyRefsMembers | scripts/verify_animation.py:85-90 | a reference is in `ref_ids` iff it equals an earlier truthy reference |
| AnimationVerifier.DuplicateStep | scripts/verify_animation.py:87-89 | reference `n` adds a duplicate iff it is truthy and equals an earlier truthy reference |
| AnimationVerifier.UnhashableDuplicateStep | scripts/verify_animation.py:87-89 | reference `n` adds an unhashable duplicate iff it is a truthy list or dict equal to an earlier truthy reference |
| AnimationVerifier.CheckUniqueLayerIds | scripts/verify_animation.py:79-101 | the check passes iff no truthy `refId` occurs twice among the layers; its report raises TypeError iff a duplicated reference is a list or dict, which only a failing check can |
| AnimationVerifier.ListRefDuplicateRaises | scripts/verify_animation.py:85-93 | two layers with `refId` `[1]` fail the check, and `set(duplicates)` raises |
| AnimationVerifier.StartTimes | scripts/verify_animation.py:107 | one numeric start time per layer |
| AnimationVerifier.ConsecutiveIffStrict | scripts/verify_animation.py:114 | comparing neighbours is enough: start times increase step by step iff every earlier one is below every later one |
| AnimationVerifier.SequentialTimingVerdicts | scripts/verify_animation.py:104-116 | a simultaneous start is reported with the first start time; otherwise the layers are staggered iff their start times strictly increase |
| AnimationVerifier.TimingStrategyAsWrittenRaises | scripts/verify_animation.py:119-141 | as written, the check never returns False; it raises iff sequential timing is expected and all layers start together, and otherwise agrees with the corrected check |
| AnimationVerifier.OneLayerTimingRaises | scripts/verify_animation.py:104-130 | one layer at start frame 0, with sequential timing expected, makes the check as written raise |
| AnimationVerifier.TimingStrategyFailsIffSimultaneous | scripts/verify_animation.py:119-141 | the check as intended fails iff sequential timing is expected and all layers share one start time |
| AnimationVerifier.EmbeddedCountZero | scripts/verify_animation.py:156-162 | no asset is counted as embedded iff no asset is embedded |
| AnimationVerifier.CheckAssetReferences | scripts/verify_animation.py:144-187 | the check passes iff there are no assets or none is embedded; the external and embedded counts partition the assets |
| AnimationVerifier.FileSizeThresholds | scripts/verify_animation.py:190-215 | with a non-zero limit the file passes iff its size in KB is within the limit; without one, or with the falsy limit 0, it passes iff it is under 500 KB (512000 bytes) |
| AnimationVerifier.FileSizeMonotone | scripts/verify_animation.py:190-215 | a smaller file passes whenever a larger one does |
| AnimationVerifier.AnimationPropertiesFailIff | scripts/verify_animation.py:218-249 | the properties fail iff `w` or `h` (of any JSON type, absent meaning 0) equals 0, the duration is 0 (no frames, or a frame rate that is not positive), or the frame rate exceeds 120 |
| AnimationVerifier.RunChecks | scripts/verify_animation.py:316-335 | the six check results, in order, are the six checks, the timing one from the corrected check; it also tells whether the duplicate report raises |
| AnimationVerifier.SuggestionsRaiseIff | scripts/verify_animation.py:252-269 | with assets the asset check accepts, the suggestions raise iff a check failed and `assets` is None, False, 0 or 0.0 (falsy, so the asset check passes it, but not iterable) |
| AnimationVerifier.NullAssetsRaise | scripts/verify_animation.py:218-269 | `{"assets": null}` can be checked, fails the properties check (no `w`), and then makes the suggestions raise |
| AnimationVerifier.VerifyAnimation | scripts/verify_animation.py:316-350 | the six check results, in order, are the six checks; everything passes iff each does; the script as written ends with the first TypeError that escapes, in order: from the duplicate report (an unhashable duplicate `refId`), from the timing check (sequential timing expected, all layers starting together), or from the suggestions (a check failed, `assets` not iterable); it then exits with 1, and otherwise its timing verdict is the corrected one and it exits with 0 whatever the verdicts |
| LottieValidator.CheckedAssets | scripts/validate_lottie.py:124-128 | every asset the loop inspects can be read without raising |
| LottieValidator.ValidateLottie | scripts/validate_lottie.py:29-181 | a missing file, an unreadable file and invalid JSON give their single error; a parsed document of any type the script reads without raising (a dict, list or string) gives the specified errors and warnings; the file passes iff there is no error |
| LottieValidator.CheckDocument | scripts/validate_lottie.py:56-181 | the checks of a parsed dict, list or string produce exactly `Errors` and `Warnings`, in order; it passes iff there is no error |
| LottieValidator.CheckFrameRate | scripts/validate_lottie.py:70-78 | the frame-rate branch computes that section of the warning list; what the section holds is stated by `FrameRateRule` |
| LottieValidator.CheckDuration | scripts/validate_lottie.py:80-96 | the duration branch computes that section of the warning list; what it holds is stated by `DurationRule` |
| LottieValidator.CheckDimensions | scripts/validate_lottie.py:98-108 | the dimension branch computes that section, reading `h` only when `w` is at least 100; what it holds is stated by `SmallDimensionsRule` and `LargeDimensionsRule` |
| LottieValidator.CheckLayers | scripts/validate_lottie.py:110-121 | the layer branch computes the empty-layers flag and that section; the rules are stated by `NoLayersRule` and `LayerRule` |
| LottieValidator.CheckAssets | scripts/validate_lottie.py:124-172 | the asset loop gives, asset by asset, exactly the asset warnings; their order and rules are stated by `AssetWarningsOrdered` and `AssetRule` |
| LottieValidator.CheckAsset | scripts/validate_lottie.py:129-172 | one asset's check computes its warning, if any; which warning and when is stated by `AssetWarningIff` |
| LottieValidator.MissingPropsExact | scripts/validate_lottie.py:56-63 | a property is reported missing iff it is listed and `in` does not find it (a key of a dict, an item of a list, a substring of a string); missing properties keep the order of the list |
| LottieValidator.PassesIff | scripts/validate_lottie.py:56-121 | there is no error iff every required property is present and the layer list is not empty; warnings play no part |
| LottieValidator.NoLayersRule | scripts/validate_lottie.py:110-116 | the empty-layers error is reported iff `layers` is present with length 0; there are at most two errors |
| LottieValidator.NonDictErrors | scripts/validate_lottie.py:56-61 | a list or string document that the script reads without raising fails with one missing-properties error, `v` among the missing |
| LottieValidator.NonDictWarnings | scripts/validate_lottie.py:66-181 | such a document gets only the file-size warning, if any |
| LottieValidator.EmptyListDocument | scripts/validate_lottie.py:56-181 | the document `[]` is read without raising and reports all seven required properties missing, and no warning for a small file |
| LottieValidator.WarningsGrouped | scripts/validate_lottie.py:66-181 | warnings come rule by rule in the script's order (frame rate, duration, dimensions, layers, assets, file size), at most one from each rule but the per-asset one |
| LottieValidator.FrameRateRule | scripts/validate_lottie.py:70-78 | a low (high) frame-rate warning is in the whole warning list iff `fr` is present and under 15 (over 120), and it carries that rate |
| LottieValidator.DurationRule | scripts/validate_lottie.py:80-96 | a short (long) animation warning is in the list iff `ip`, `op` and `fr` are present and `(op - ip) / fr` is under 1 (over 10) seconds, and it carries that duration |
| LottieValidator.SmallDimensionsRule | scripts/validate_lottie.py:98-104 | a small-dimensions warning is in the list iff `w` and `h` are present and either is under 100 |
| LottieValidator.LargeDimensionsRule | scripts/validate_lottie.py:98-106 | a large-dimensions warning is in the list iff `w` and `h` are present, neither is under 100 and either is over 2048 |
| LottieValidator.LayerRule | scripts/validate_lottie.py:110-119 | a many-layers warning is in the list iff `layers` is present with more than 50 entries, and it carries that count |
| LottieValidator.FileSizeRule | scripts/validate_lottie.py:174-177 | a large-file warning is in the list iff the file is over 500 KB, and it carries the size in KB |
| LottieValidator.AssetRule | scripts/validate_lottie.py:124-172 | for asset `i` of the list: a very large (large) embedded-image warning is in the list iff the asset is embedded with a `data:image` path decoding to over 500 KB (over 100 and at most 500 KB); an external-asset warning iff it has a path and is not embedded |
| LottieValidator.AssetWarningIff | scripts/validate_lottie.py:130-172 | one asset's check: which warning it issues and exactly when |
| LottieValidator.AssetWarningsMember | scripts/validate_lottie.py:124-172 | an asset warning is among the first `n` assets' warnings iff it names one of them and that asset's own check issues it |
| LottieValidator.Base64PartSplit | scripts/validate_lottie.py:140-148 | the payload is everything after the first comma, or the whole path when there is no comma |
| LottieValidator.DecodedSizeThresholds | scripts/validate_lottie.py:145-158 | the decoded size is over 500 KB iff the payload has more than 682666 characters, and over 100 KB iff it has more than 136533 |
| LottieValidator.AssetWarningsOrdered | scripts/validate_lottie.py:124-172 | at most one warning per asset, each naming an inspected asset, in increasing asset order, and all from the asset rule |
| LogoValidator.SvgHead | scripts/validate_logo.py:51 | `f.read(1000)`: a prefix of the text of at most 1000 characters |
| LogoValidator.ValidateLogo | scripts/validate_logo.py:29-114 | a missing file gives no details; the lower-cased suffix selects SVG, raster or unsupported; SVG, unreadable and unsupported files each give their single error; readable rasters report format, size, mode, alpha and the warnings in order; the logo passes iff there is no error |
| LogoValidator.SvgTagAnyCase | scripts/validate_logo.py:51-52 | a file looks like SVG iff `<svg`, in any letter case, starts within its first 1000 characters |
| LogoValidator.SliceLower | scripts/validate_logo.py:52 | lower-casing the head and taking four characters equals lower-casing those four characters of the text |
| LogoValidator.LateSvgTagIgnored | scripts/validate_logo.py:51-54 | a `<svg` tag after 1000 characters without `<` is not seen |
| LogoValidator.SuffixCaseIgnored | scripts/validate_logo.py:46 | the verdict does not depend on the letter case of the suffix |
| LogoValidator.ReadableRasterPasses | scripts/validate_logo.py:64-114 | a readable PNG or JPEG always passes; raster warnings never stop it, and there are at most three |
| LogoValidator.LargeFileThreshold | scripts/validate_logo.py:98 | the size is over 10 MB iff it is over 10485760 bytes |
| SvgExtractor.KeepNumeric | scripts/extract_svg_elements.py:66-73 | only digits and `.` are kept |
| SvgExtractor.KeepNumericExact | scripts/extract_svg_elements.py:66-73 | the kept characters are exactly the input's digits and dots, in order and each as often as in the input; a numeric string is left alone |
| SvgExtractor.CountAppend | scripts/extract_svg_elements.py:73 | counting a character distributes over concatenation |
| SvgExtractor.NoSpaceInNumeric | scripts/extract_svg_elements.py:66-73 | a stripped dimension has no space |
| SvgExtractor.ViewBoxFallback | scripts/extract_svg_elements.py:65-73 | without a viewBox the result starts with `0 0 `, has exactly three spaces and is otherwise numeric |
| SvgExtractor.ViewBoxDefault | scripts/extract_svg_elements.py:66-73 | with no viewBox, width or height the result is `0 0 100 100` |
| SvgExtractor.NumberElements | scripts/extract_svg_elements.py:100-106 | the enumeration loop gives one record per element, with index `i` and its id or `<prefix><i>` |
| SvgExtractor.ExtractPaths | scripts/extract_svg_elements.py:87-108 | one path record per path, numbered `path_<i>` when it has no id |
| SvgExtractor.ExtractGroups | scripts/extract_svg_elements.py:111-132 | one group record per group, numbered `group_<i>` when it has no id |
| SvgExtractor.ExtractTexts | scripts/extract_svg_elements.py:135-168 | the text loop gives one record per text, or with letter splitting one record per character of its content (spaces included) named `letter_<c>_<i>_<j>` |
| SvgExtractor.CollectElements | scripts/extract_svg_elements.py:248-265 | paths unless groups only; groups and texts unless paths only |
| SvgExtractor.NumberedRecordsShape | scripts/extract_svg_elements.py:100-106 | exactly one record per element, record `i` describing element `i` |
| SvgExtractor.LetterRecordsShape | scripts/extract_svg_elements.py:152-159 | with letter splitting, one record per character of the text (spaces included), with that character and its position |
| SvgExtractor.TextRecordsCount | scripts/extract_svg_elements.py:148-166 | one record per text, or the total number of letter records when letters are split |
| SvgExtractor.EmptyTextNoLetters | scripts/extract_svg_elements.py:149-151 | a text without content adds no letter record |
| SvgExtractor.NumberedRecordsKind | scripts/extract_svg_elements.py:100-106 | every numbered record has the kind of its collection |
| SvgExtractor.TextRecordsKind | scripts/extract_svg_elements.py:148-166 | every text record is a text or a letter |
| SvgExtractor.CollectedOrder | scripts/extract_svg_elements.py:248-265 | all paths come before all groups, and groups before texts; groups only means no path; paths only means only paths |
| SvgExtractor.ReplaceChar | scripts/extract_svg_elements.py:296 | `str.replace` of one character: the same length, each occurrence replaced, everything else kept |
| SvgExtractor.SanitizedIdClean | scripts/extract_svg_elements.py:296 | the file stem has no space or `/`, keeps every other character in place, and sanitising twice changes nothing more |
| SvgExtractor.OutputFileNameClean | scripts/extract_svg_elements.py:296-297 | an output file name ends with `.svg` and holds no `/` or space, so it names a file directly inside the output directory |
| RenderChecks.ValidateAssets | scripts/render_lottie.py:18-62 | invalid JSON and read failures fail; no assets pass; otherwise the check passes iff no external asset is missing, and it lists the missing ones |
| RenderChecks.VerifyOutput | scripts/render_lottie.py:65-87 | the output is accepted iff it exists and holds at least 1024 bytes; it is accepted iff the message is empty |
| RenderChecks.ApplyPreview | scripts/render_lottie.py:382-392 | with a preview frame count, `op` is set in place to the smaller of it and the current `op` (default 180); without one the document is unchanged |
| RenderChecks.MissingLinesEmpty | scripts/render_lottie.py:42-62 | no missing line iff no asset is missing |
| RenderChecks.MissingIndicesExact | scripts/render_lottie.py:42-56 | the reported assets are exactly the missing ones, in increasing order |
| RenderChecks.MissingLinesMatch | scripts/render_lottie.py:42-56 | the `p`-th line describes the `p`-th missing asset, which is external |
| RenderChecks.EmbeddedNeverMissing | scripts/render_lottie.py:45 | an asset with `e` absent or 1 is never reported missing |
| RenderChecks.VerifyOutputMonotone | scripts/render_lottie.py:81-82 | a larger output is accepted whenever a smaller one is |
| RenderChecks.PreviewOpIsMin | scripts/render_lottie.py:389-390 | the preview `op` is a number no larger than the preview count or the original `op`, and is one of them |
| RenderChecks.PreviewKeepsOtherEntries | scripts/render_lottie.py:392 | setting `op` changes no other entry, and keeps the key order (a new `op` goes last) |
| Json.ContainsKey | scripts/validate_loop.py:46 | Python's `in`: defined exactly on dicts, lists and strings (None where it raises), and then key membership, a list item equal to the key, or a substring |
| Json.LookupFinds | scripts/validate_loop.py:76 | a lookup succeeds exactly for present keys, and finds an entry of the dict |
| Json.SetKeyKeepsOrder | scripts/render_lottie.py:392 | item assignment keeps the key order: an existing key stays in place, a new key goes last |
| Json.RemoveKey | scripts/optimize_lottie.py:58 | `pop(key, None)`: the key is gone, other lookups are unchanged, and the entries are a subsequence of the input |
| Json.SetKey | scripts/render_lottie.py:392 | after `d[key] = value` the key maps to the value and other lookups are unchanged |
| Json.Elements | scripts/validate_loop.py:50 | iteration yields a list's items; the iteration is empty iff the value is falsy |
| Json.Len | scripts/validate_lottie.py:112 | `len` is defined exactly where iteration is, and counts its elements |
| Json.JsonDict.Pop | scripts/optimize_lottie.py:58 | pops the key in place |
| Json.JsonDict.Set | scripts/render_lottie.py:392 | assigns the key in place |

## Left out

- File, JSON and XML input and output are not modelled: opening and reading files, `json.load`/`json.dump`, `ET.parse`, writing the extracted SVGs and the preview file. Their results are inputs: a parsed document, a read failure, file existence as a set of paths, and sizes in bytes.
- Printing and messages are not modelled, except the messages `validate_assets` and `verify_output` return. The text after `Invalid JSON: ` and `Failed to read file: ` is an exception's text and is left open.
- Exit codes are modelled for `verify_animation` only. The other scripts' exit codes follow their pass flags and are not modelled.
- Rendering is not modelled: `render_lottie_to_gif`, `render_lottie_to_mp4`, Cairo, ffmpeg and the test render. They are external programs.
- `prepare_logo.py`, `batch_export.py`, `convert_logo_to_svg.py` and dependency checks are not part of this model.
- Python's `round` is modelled as an arbitrary function parameter. Decimal rounding of binary floats is not modelled.
- `float()` of a numeric string is not modelled. `LoopValidator.Float` treats every string as raising.
- Floating-point arithmetic is modelled on exact reals.
- Lower-casing is ASCII only. Non-ASCII letters in a suffix, an SVG head or a letter id are not case-folded.
- `KeepNumeric` models the regular expression class `[\d.]` on ASCII digits only.
- `JoinPath` joins with one `/` and does not normalise. `pathlib` drops `.` components and collapses repeated slashes, so `Path('.') / 'a.png'` is `a.png` where `JoinPath` gives `./a.png`. Neither resolves `..`.
- `Path.suffix` is taken as an input, not computed from a file name.
- `validate_lottie`'s `info['details']` is not modelled: the version, frame rate, in and out points, duration, dimensions, layer count and asset count it records are only printed or returned for display. The model keeps the errors and warnings.
- `extract_svg_elements` looks for namespaced `path`, `g` and `text` elements first and takes the plain ones only when there is no namespaced one. `SvgRoot`'s `paths`, `groups` and `texts` are the result of that fallback, given as inputs.
- Image decoding is not modelled. Pillow's format, size, mode and `info` keys are an input, or absent when the image cannot be opened.
- A JSON object with repeated keys takes the first entry in lookups. A parser keeps the last one.
- `verify_animation`'s size estimate of embedded images is not modelled. It only feeds printed output.
- `extract_svg_elements`'s listing mode and its bounding-box placeholder are not modelled. They only print or return constants.
- LoopValidator.ValidateLoop: starts from a parsed document. A missing or unreadable file is left out, because it is file I/O.
- LottieValidator.ValidateLottie: requires `WellTyped` for a parsed document. It excludes only documents on which the script raises, rather than modelling the crash: a number, None or boolean document; a list or string holding `v`, `fr`, `layers` or `assets`, both `ip` and `op`, or both `w` and `h`; a non-numeric `fr`, or `fr` equal to 0 with `ip` and `op` present; a non-numeric `w`, or a non-numeric `h` when `w` is at least 100; a `layers` or `assets` without `len`; non-dict assets; a non-string path on an embedded asset.
- LottieValidator.CheckDocument: requires `WellTyped` for the same reason.
- AnimationVerifier.VerifyAnimation: requires `Checkable`. Documents on which a check raises are excluded, because the script itself crashes on them: non-dict layers or assets, a non-numeric `fr`, `ip` or `op`, and a non-string asset path. The document must be a dict, since every check calls `data.get`. Start times must be numbers: the script also accepts start times it can compare or hash in other ways (strings compare as text, a single layer's start time is never compared), which the model does not cover. `w` and `h` may be any value.
- AnimationVerifier.VerifyAnimation: its six verdicts use the corrected timing check. When sequential timing is expected and all layers start together, the script as written raises inside the timing check before the remaining checks run; the model reports that as the `TimingCheckRaised` outcome with exit code 1 rather than modelling the traceback. The other two escaping TypeErrors are reported the same way, as `DuplicateReportRaised` and `SuggestionsRaised`.
- AnimationVerifier.CheckUniqueLayerIds: requires layers that are dicts, for the same reason. A list or dict `refId` is accepted; the raise it causes in the report is modelled as `raises`.
- AnimationVerifier.CheckAssetReferences: requires checkable assets, for the same reason.
- RenderChecks.ValidateAssets: requires `CheckableDocument` for a parsed document, for the same reason. This covers dict assets and string paths on external assets.
- RenderChecks.ApplyPreview: requires a numeric `op`. A non-numeric `op` makes `min` raise, which the script reports and exits on.
- Optimizer.OptimizeDocument: models the metadata loop on a dict document only. For another top-level value it returns None, where the script's `pop` would raise and be reported as an error.

## Findings

| source | as written | input that shows it | evidently intended | confidence | as-written member | corrected member |
|---|---|---|---|---|---|---|
| scripts/verify_animation.py:110-130 | when all layers start at the same frame, `check_sequential_timing` returns the first start time, a number. With `--expect-sequential`, `check_timing_strategy` then calls `set()` on that number, which raises TypeError. The check can never report a simultaneous start. | a document with one layer `{}` (start frame 0), with sequential timing expected | fail the timing check when sequential timing is expected and all layers share one start time | not executed | AnimationVerifier.TimingStrategyAsWrittenRaises | AnimationVerifier.TimingStrategyFailsIffSimultaneous |
