/**
 * The naming and bookkeeping of the SVG element extractor
 * (scripts/extract_svg_elements.py): the viewBox fallback, the records
 * made for paths, groups and text (optionally one per letter), the order
 * in which they are collected under the command-line flags, and the
 * output file names.
 *
 * XML parsing is left to the caller: a parsed document is given as its
 * root attributes and the element lists `findall` returns, each element
 * reduced to its `id` attribute and its text.
 */
module SvgExtractor {
  import opened Util

  /** An element of the tree: its `id` attribute and its `text`, when present. */
  datatype Element = Element(id: Option<string>, text: Option<string>)

  /** The root's attributes that matter and the elements found under it:
      each list holds the namespaced elements, or the plain ones when
      there is no namespaced one. */
  datatype SvgRoot = SvgRoot(
    viewBox: Option<string>,
    width: Option<string>,
    height: Option<string>,
    paths: seq<Element>,
    groups: seq<Element>,
    texts: seq<Element>)

  datatype Kind = PathKind | GroupKind | TextKind | LetterKind

  /** The `index` of a record: the element's position, or `i_j` for letter
      `j` of text element `i`. */
  datatype Index = At(i: nat) | LetterAt(i: nat, j: nat)

  datatype Record = Record(kind: Kind, index: Index, element: Element, id: string, letter: Option<char>)

  // ---------------------------------------------------------------------
  // viewBox
  // ---------------------------------------------------------------------

  /** A character `[\d.]` matches (ASCII digits only). */
  predicate IsNumericChar(c: char) {
    '0' <= c <= '9' || c == '.'
  }

  /** `re.sub(r'[^\d.]', '', s)`: the digits and dots of `s`, in order. */
  function KeepNumeric(s: string): (r: string)
    ensures forall c :: c in r ==> IsNumericChar(c)
  {
    if |s| == 0 then []
    else (if IsNumericChar(s[0]) then [s[0]] else []) + KeepNumeric(s[1..])
  }

  /** The root's viewBox, or one built from its width and height. */
  function GetViewBox(root: SvgRoot): string {
    if root.viewBox.Some? && |root.viewBox.value| > 0 then root.viewBox.value
    else "0 0 " + KeepNumeric(root.width.GetOr("100")) + " " + KeepNumeric(root.height.GetOr("100"))
  }

  /** How many times `c` occurs in `s`. */
  function Count(s: string, c: char): nat {
    if |s| == 0 then 0 else (if s[0] == c then 1 else 0) + Count(s[1..], c)
  }

  // ---------------------------------------------------------------------
  // Records
  // ---------------------------------------------------------------------

  /** The record for element `i` of a path or group list: the element's own
      id, or `<prefix><i>`. */
  function NumberedRecord(e: Element, kind: Kind, prefix: string, i: nat): Record {
    Record(kind, At(i), e, e.id.GetOr(prefix + NatToString(i)), None)
  }

  /** The records for the first `n` elements, in document order. */
  function NumberedRecords(elements: seq<Element>, kind: Kind, prefix: string, n: nat): seq<Record>
    requires n <= |elements|
  {
    if n == 0 then []
    else NumberedRecords(elements, kind, prefix, n - 1) + [NumberedRecord(elements[n - 1], kind, prefix, n - 1)]
  }

  /** `text.text or ''`. */
  function Content(e: Element): string {
    e.text.GetOr("")
  }

  /** The record for letter `j` of text element `i`. */
  function LetterRecord(e: Element, i: nat, j: nat): Record
    requires j < |Content(e)|
  {
    var letter := Content(e)[j];
    Record(LetterKind, LetterAt(i, j), e,
           "letter_" + [LowerChar(letter)] + "_" + NatToString(i) + "_" + NatToString(j), Some(letter))
  }

  /** The records for the first `m` letters of text element `i`. */
  function LetterRecords(e: Element, i: nat, m: nat): seq<Record>
    requires m <= |Content(e)|
  {
    if m == 0 then [] else LetterRecords(e, i, m - 1) + [LetterRecord(e, i, m - 1)]
  }

  /** The records for the first `n` text elements: one per element, or one
      per letter when splitting. */
  function TextRecords(texts: seq<Element>, n: nat, splitLetters: bool): seq<Record>
    requires n <= |texts|
  {
    if n == 0 then []
    else
      var e := texts[n - 1];
      TextRecords(texts, n - 1, splitLetters) +
      (if splitLetters then LetterRecords(e, n - 1, |Content(e)|) else [NumberedRecord(e, TextKind, "text_", n - 1)])
  }

  /** The number of letters in the first `n` text elements. */
  function LetterTotal(texts: seq<Element>, n: nat): nat
    requires n <= |texts|
  {
    if n == 0 then 0 else LetterTotal(texts, n - 1) + |Content(texts[n - 1])|
  }

  /** What `main` collects: paths unless `--groups-only`, then groups and
      texts unless `--paths-only`. */
  function Collected(root: SvgRoot, groupsOnly: bool, pathsOnly: bool, splitLetters: bool): seq<Record> {
    (if groupsOnly then [] else NumberedRecords(root.paths, PathKind, "path_", |root.paths|)) +
    (if pathsOnly then []
     else NumberedRecords(root.groups, GroupKind, "group_", |root.groups|) +
          TextRecords(root.texts, |root.texts|, splitLetters))
  }

  /** `extract_paths` and `extract_groups`: one record per element, in order. */
  method NumberElements(elements: seq<Element>, kind: Kind, prefix: string) returns (records: seq<Record>)
    ensures records == NumberedRecords(elements, kind, prefix, |elements|)
  {
    records := [];
    for i := 0 to |elements|
      invariant records == NumberedRecords(elements, kind, prefix, i)
    {
      var e := elements[i];
      records := records + [Record(kind, At(i), e, e.id.GetOr(prefix + NatToString(i)), None)];
    }
  }

  method ExtractPaths(root: SvgRoot) returns (paths: seq<Record>)
    ensures paths == NumberedRecords(root.paths, PathKind, "path_", |root.paths|)
  {
    paths := NumberElements(root.paths, PathKind, "path_");
  }

  method ExtractGroups(root: SvgRoot) returns (groups: seq<Record>)
    ensures groups == NumberedRecords(root.groups, GroupKind, "group_", |root.groups|)
  {
    groups := NumberElements(root.groups, GroupKind, "group_");
  }

  /** `extract_text_elements`: one record per text element, or with
      `splitLetters` one per character of its text. */
  method ExtractTexts(root: SvgRoot, splitLetters: bool) returns (texts: seq<Record>)
    ensures texts == TextRecords(root.texts, |root.texts|, splitLetters)
  {
    texts := [];
    for i := 0 to |root.texts|
      invariant texts == TextRecords(root.texts, i, splitLetters)
    {
      var text := root.texts[i];
      if splitLetters {
        var content := text.text.GetOr("");
        ghost var before := texts;
        for j := 0 to |content|
          invariant texts == before + LetterRecords(text, i, j)
        {
          var letter := content[j];
          texts := texts + [Record(LetterKind, LetterAt(i, j), text,
                                   "letter_" + [LowerChar(letter)] + "_" + NatToString(i) + "_" + NatToString(j),
                                   Some(letter))];
        }
      } else {
        texts := texts + [Record(TextKind, At(i), text, text.id.GetOr("text_" + NatToString(i)), None)];
      }
    }
  }

  /** The element collection in `main`. */
  method CollectElements(root: SvgRoot, groupsOnly: bool, pathsOnly: bool, splitLetters: bool)
    returns (allElements: seq<Record>)
    ensures allElements == Collected(root, groupsOnly, pathsOnly, splitLetters)
  {
    allElements := [];
    if !groupsOnly {
      var paths := ExtractPaths(root);
      allElements := allElements + paths;
    }
    if !pathsOnly {
      var groups := ExtractGroups(root);
      allElements := allElements + groups;
      var texts := ExtractTexts(root, splitLetters);
      allElements := allElements + texts;
    }
  }

  // ---------------------------------------------------------------------
  // Output file names
  // ---------------------------------------------------------------------

  /** `s.replace(a, b)` for single characters `a` and `b`. */
  function ReplaceChar(s: string, a: char, b: char): (r: string)
    ensures |r| == |s|
    ensures forall k :: 0 <= k < |s| ==> r[k] == if s[k] == a then b else s[k]
  {
    if |s| == 0 then [] else [if s[0] == a then b else s[0]] + ReplaceChar(s[1..], a, b)
  }

  /** `elem_id.replace(' ', '_').replace('/', '_')`. */
  function SanitizedId(id: string): string {
    ReplaceChar(ReplaceChar(id, ' ', '_'), '/', '_')
  }

  /** The output file name for a record. */
  function OutputFileName(r: Record): string {
    SanitizedId(r.id) + ".svg"
  }

  // ---------------------------------------------------------------------
  // Properties
  // ---------------------------------------------------------------------

  /** The unit stripping keeps exactly the digits and dots, in order, and
      leaves an already numeric string alone. */
  lemma {:induction false} KeepNumericExact(s: string)
    ensures forall c :: c in KeepNumeric(s) <==> c in s && IsNumericChar(c)
    ensures IsSubsequence(KeepNumeric(s), s)
    ensures (forall c :: c in s ==> IsNumericChar(c)) ==> KeepNumeric(s) == s
    ensures forall c :: IsNumericChar(c) ==> Count(KeepNumeric(s), c) == Count(s, c)
  {
    if |s| == 0 {
      EmptyIsSubsequence(s);
    } else {
      KeepNumericExact(s[1..]);
      var rest := KeepNumeric(s[1..]);
      assert s == [s[0]] + s[1..];
      assert forall c :: c in s[1..] ==> c in s;
      if IsNumericChar(s[0]) {
        assert KeepNumeric(s) == [s[0]] + rest;
        assert ([s[0]] + rest)[1..] == rest;
        SubsequenceCons(s[0], rest, s[1..]);
      } else {
        assert KeepNumeric(s) == rest;
        SubsequenceSkip(s[0], rest, s[1..]);
      }
    }
  }

  lemma {:induction false} CountAppend(a: string, b: string, c: char)
    ensures Count(a + b, c) == Count(a, c) + Count(b, c)
  {
    if |a| > 0 {
      CountAppend(a[1..], b, c);
      assert (a + b)[1..] == a[1..] + b;
    } else {
      assert a + b == b;
    }
  }

  lemma {:induction false} NoSpaceInNumeric(s: string)
    requires forall c :: c in s ==> IsNumericChar(c)
    ensures Count(s, ' ') == 0
  {
    if |s| > 0 {
      assert s[0] in s;
      assert forall c :: c in s[1..] ==> c in s;
      NoSpaceInNumeric(s[1..]);
    }
  }

  /** Without a usable viewBox the result is `0 0 W H`: it starts with
      `0 0 `, has exactly three spaces, and every other character is a
      digit or a dot. */
  lemma ViewBoxFallback(root: SvgRoot)
    requires root.viewBox.None? || root.viewBox.value == ""
    ensures StartsWith(GetViewBox(root), "0 0 ")
    ensures Count(GetViewBox(root), ' ') == 3
    ensures forall c :: c in GetViewBox(root) ==> c == ' ' || IsNumericChar(c)
  {
    var w, h := KeepNumeric(root.width.GetOr("100")), KeepNumeric(root.height.GetOr("100"));
    var vb := GetViewBox(root);
    assert vb == "0 0 " + w + " " + h;
    NoSpaceInNumeric(w);
    NoSpaceInNumeric(h);
    CountAppend("0 0 ", w, ' ');
    CountAppend("0 0 " + w, " ", ' ');
    CountAppend("0 0 " + w + " ", h, ' ');
    assert ("0 0 " + w + " " + h)[..4] == "0 0 ";
  }

  /** A root with neither viewBox nor size gets `0 0 100 100`. */
  lemma ViewBoxDefault(root: SvgRoot)
    requires root.viewBox.None? && root.width.None? && root.height.None?
    ensures GetViewBox(root) == "0 0 100 100"
  {
    assert KeepNumeric("100") == "100" by {
      KeepNumericExact("100");
    }
  }

  /** Record `i` of a path or group list is the one for element `i`, so
      indices run 0, 1, ... in document order. */
  lemma {:induction false} NumberedRecordsShape(elements: seq<Element>, kind: Kind, prefix: string, n: nat)
    requires n <= |elements|
    ensures |NumberedRecords(elements, kind, prefix, n)| == n
    ensures forall i :: 0 <= i < n ==> NumberedRecords(elements, kind, prefix, n)[i] == NumberedRecord(elements[i], kind, prefix, i)
  {
    if n > 0 {
      NumberedRecordsShape(elements, kind, prefix, n - 1);
    }
  }

  /** A text element yields one record per character, in order: record `j`
      carries letter `j`, index `i_j` and id `letter_<c>_i_j`. */
  lemma {:induction false} LetterRecordsShape(e: Element, i: nat, m: nat)
    requires m <= |Content(e)|
    ensures |LetterRecords(e, i, m)| == m
    ensures forall j :: 0 <= j < m ==> LetterRecords(e, i, m)[j] == LetterRecord(e, i, j)
    ensures forall j :: 0 <= j < m ==> LetterRecords(e, i, m)[j].letter == Some(Content(e)[j]) &&
                                       LetterRecords(e, i, m)[j].index == LetterAt(i, j)
  {
    if m > 0 {
      LetterRecordsShape(e, i, m - 1);
    }
  }

  /** One record per text element, or one per letter of their texts. */
  lemma {:induction false} TextRecordsCount(texts: seq<Element>, n: nat, splitLetters: bool)
    requires n <= |texts|
    ensures |TextRecords(texts, n, splitLetters)| == if splitLetters then LetterTotal(texts, n) else n
  {
    if n > 0 {
      TextRecordsCount(texts, n - 1, splitLetters);
      if splitLetters {
        LetterRecordsShape(texts[n - 1], n - 1, |Content(texts[n - 1])|);
      }
    }
  }

  /** A text element with no text yields no letter record. */
  lemma EmptyTextNoLetters(texts: seq<Element>, n: nat)
    requires 0 < n <= |texts| && texts[n - 1].text.None?
    ensures TextRecords(texts, n, true) == TextRecords(texts, n - 1, true)
  {
  }

  /** The order of kinds in the collection: paths, then groups, then texts. */
  function Rank(k: Kind): nat {
    match k
    case PathKind => 0
    case GroupKind => 1
    case TextKind => 2
    case LetterKind => 2
  }

  lemma {:induction false} NumberedRecordsKind(elements: seq<Element>, kind: Kind, prefix: string, n: nat)
    requires n <= |elements|
    ensures forall r :: r in NumberedRecords(elements, kind, prefix, n) ==> r.kind == kind
  {
    if n > 0 {
      NumberedRecordsKind(elements, kind, prefix, n - 1);
    }
  }

  lemma {:induction false} TextRecordsKind(texts: seq<Element>, n: nat, splitLetters: bool)
    requires n <= |texts|
    ensures forall r :: r in TextRecords(texts, n, splitLetters) ==> Rank(r.kind) == 2
  {
    if n > 0 {
      TextRecordsKind(texts, n - 1, splitLetters);
      if splitLetters {
        var e := texts[n - 1];
        LetterRecordsShape(e, n - 1, |Content(e)|);
      }
    }
  }

  /** The collection lists paths before groups before texts; `--groups-only`
      leaves out every path and `--paths-only` keeps nothing but paths. */
  lemma CollectedOrder(root: SvgRoot, groupsOnly: bool, pathsOnly: bool, splitLetters: bool)
    ensures var all := Collected(root, groupsOnly, pathsOnly, splitLetters);
            forall p, q :: 0 <= p < q < |all| ==> Rank(all[p].kind) <= Rank(all[q].kind)
    ensures groupsOnly ==> forall r :: r in Collected(root, groupsOnly, pathsOnly, splitLetters) ==> r.kind != PathKind
    ensures pathsOnly ==> forall r :: r in Collected(root, groupsOnly, pathsOnly, splitLetters) ==> r.kind == PathKind
  {
    var paths := NumberedRecords(root.paths, PathKind, "path_", |root.paths|);
    var groups := NumberedRecords(root.groups, GroupKind, "group_", |root.groups|);
    var texts := TextRecords(root.texts, |root.texts|, splitLetters);
    NumberedRecordsKind(root.paths, PathKind, "path_", |root.paths|);
    NumberedRecordsKind(root.groups, GroupKind, "group_", |root.groups|);
    TextRecordsKind(root.texts, |root.texts|, splitLetters);
    var all := Collected(root, groupsOnly, pathsOnly, splitLetters);
    forall p | 0 <= p < |all|
      ensures Rank(all[p].kind) == Segment(p, |if groupsOnly then [] else paths|, |groups|)
    {
      var front := if groupsOnly then [] else paths;
      if p < |front| {
        assert all[p] in paths;
      } else if p < |front| + |groups| {
        assert !pathsOnly && all[p] == groups[p - |front|];
        assert all[p] in groups;
      } else {
        assert !pathsOnly && all[p] == texts[p - |front| - |groups|];
        assert all[p] in texts;
      }
    }
  }

  /** Which part of the collection position `p` falls in. */
  function Segment(p: nat, pathCount: nat, groupCount: nat): nat {
    if p < pathCount then 0 else if p < pathCount + groupCount then 1 else 2
  }

  /** A sanitised file name has no space and no slash; every other
      character is kept, and sanitising twice changes nothing more. */
  lemma SanitizedIdClean(id: string)
    ensures |SanitizedId(id)| == |id|
    ensures ' ' !in SanitizedId(id) && '/' !in SanitizedId(id)
    ensures forall k :: 0 <= k < |id| && id[k] != ' ' && id[k] != '/' ==> SanitizedId(id)[k] == id[k]
    ensures SanitizedId(SanitizedId(id)) == SanitizedId(id)
  {
  }

  /** Every output file name ends in `.svg` and contains no slash. */
  lemma OutputFileNameClean(r: Record)
    ensures |OutputFileName(r)| >= 4 && OutputFileName(r)[|OutputFileName(r)| - 4..] == ".svg"
    ensures '/' !in OutputFileName(r) && ' ' !in OutputFileName(r)
  {
    var s := SanitizedId(r.id);
    assert ' ' !in s && '/' !in s by {
      SanitizedIdClean(r.id);
    }
    var name := s + ".svg";
    assert name[|s|..] == ".svg";
    forall k | 0 <= k < |name|
      ensures name[k] != '/' && name[k] != ' '
    {
      if k < |s| {
        assert name[k] == s[k] && s[k] in s;
      }
    }
  }
}
