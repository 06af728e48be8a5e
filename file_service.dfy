/** The export helpers: the markdown cleaning and page layout behind the PDF
    export, and the row extraction behind the spreadsheet export. The PDF
    and spreadsheet libraries are not modelled: the wrapped line list comes
    in as a value and the layout and rows go out as values. */
module FileService {
  import opened Wrappers
  import opened Strings

  // ---------------------------------------------------- markdown cleaning

  /** `c` repeated `k` times. */
  function Repeat(c: char, k: nat): (r: string)
    ensures |r| == k && forall i :: 0 <= i < k ==> r[i] == c
  {
    if k == 0 then "" else [c] + Repeat(c, k - 1)
  }

  /** How many copies of `c` the string starts with. */
  function LeadingRun(s: string, c: char): (n: nat)
    ensures n <= |s|
    ensures forall i :: 0 <= i < n ==> s[i] == c
    ensures n < |s| ==> s[n] != c
  {
    if s == [] || s[0] != c then 0 else 1 + LeadingRun(s[1..], c)
  }

  lemma StartsWithRun(s: string, c: char, k: nat)
    ensures StartsWith(s, Repeat(c, k)) <==> LeadingRun(s, c) >= k
  {
    var n := LeadingRun(s, c);
    if n >= k {
      assert s[..k] == Repeat(c, k);
    }
  }

  /** `s.replace(/pat/g, '')` for a pattern without special characters:
      leftmost occurrences removed, scanning on after each removal. */
  function RemoveAll(s: string, pat: string): (r: string)
    requires pat != []
    ensures |r| <= |s|
    decreases |s|
  {
    if s == [] then ""
    else if StartsWith(s, pat) then RemoveAll(s[|pat|..], pat)
    else [s[0]] + RemoveAll(s[1..], pat)
  }

  /** No position of `s` starts an occurrence of `pat`. */
  predicate Free(s: string, pat: string) {
    forall i :: 0 <= i <= |s| ==> !StartsWith(s[i..], pat)
  }

  /** A string without the pattern passes through unchanged. */
  lemma {:induction false} RemoveAllAbsent(s: string, pat: string)
    requires pat != [] && Free(s, pat)
    ensures RemoveAll(s, pat) == s
    decreases |s|
  {
    if s != [] {
      assert !StartsWith(s[0..], pat) && s[0..] == s;
      forall i | 0 <= i <= |s[1..]| ensures !StartsWith(s[1..][i..], pat) {
        assert s[1..][i..] == s[i + 1..];
      }
      RemoveAllAbsent(s[1..], pat);
    }
  }

  /** Removing runs of k copies of c leaves a shorter leading run alone. */
  lemma {:induction false} RemoveRunLeading(s: string, c: char, k: nat)
    requires LeadingRun(s, c) < k
    ensures LeadingRun(RemoveAll(s, Repeat(c, k)), c) == LeadingRun(s, c)
    decreases |s|
  {
    StartsWithRun(s, c, k);
    if s != [] && s[0] == c {
      RemoveRunLeading(s[1..], c, k);
      assert LeadingRun(s, c) == 1 + LeadingRun(s[1..], c);
    }
  }

  /** After removing every run of k copies of c, no position of the result
      starts such a run: the pass removes `**` and code fences for good. */
  lemma {:induction false} RemoveRunComplete(s: string, c: char, k: nat)
    requires k >= 1
    ensures Free(RemoveAll(s, Repeat(c, k)), Repeat(c, k))
    decreases |s|
  {
    var pat := Repeat(c, k);
    var r := RemoveAll(s, pat);
    StartsWithRun(s, c, k);
    if s == [] {
      assert !StartsWith(r[0..], pat) by { assert r == []; }
    } else if StartsWith(s, pat) {
      assert r == RemoveAll(s[|pat|..], pat);
      RemoveRunComplete(s[|pat|..], c, k);
    } else {
      var rest := RemoveAll(s[1..], pat);
      RemoveRunComplete(s[1..], c, k);
      assert r == [s[0]] + rest;
      forall i | 0 <= i <= |r| ensures !StartsWith(r[i..], pat) {
        if i > 0 {
          assert r[i..] == rest[i - 1..];
        } else {
          StartsWithRun(r, c, k);
          if s[0] == c {
            assert LeadingRun(s, c) == 1 + LeadingRun(s[1..], c);
            RemoveRunLeading(s[1..], c, k);
            assert LeadingRun(r, c) == 1 + LeadingRun(rest, c);
          }
        }
      }
    }
  }

  /** `/#+\s/g` removed: a run of `#` followed by whitespace goes, together
      with that one whitespace character; a run followed by anything else
      stays. */
  function StripHeadings(s: string): (r: string)
    ensures |r| <= |s|
    decreases |s|
  {
    if s == [] then ""
    else if s[0] == '#' then
      var n := LeadingRun(s, '#');
      if n < |s| && IsSpace(s[n]) then StripHeadings(s[n + 1..])
      else s[..n] + StripHeadings(s[n..])
    else [s[0]] + StripHeadings(s[1..])
  }

  /** No `#` in the result is directly followed by whitespace. */
  predicate NoHeadingMark(r: string) {
    forall i :: 0 <= i < |r| - 1 ==> r[i] == '#' ==> !IsSpace(r[i + 1])
  }

  lemma StripHeadingsFirst(s: string)
    requires s != [] && s[0] != '#'
    ensures StripHeadings(s) != [] && StripHeadings(s)[0] == s[0]
  {
  }

  lemma {:induction false} StripHeadingsComplete(s: string)
    ensures NoHeadingMark(StripHeadings(s))
    decreases |s|
  {
    if s == [] {
    } else if s[0] == '#' {
      var n := LeadingRun(s, '#');
      if n < |s| && IsSpace(s[n]) {
        StripHeadingsComplete(s[n + 1..]);
      } else {
        StripHeadingsComplete(s[n..]);
        HeadingRunKeptStep(s);
      }
    } else {
      StripHeadingsComplete(s[1..]);
      PlainCharStep(s);
    }
  }

  /** A run of `#` not followed by whitespace stays in front of the rest. */
  lemma HeadingRunKeptStep(s: string)
    requires s != [] && s[0] == '#'
    requires var n := LeadingRun(s, '#'); !(n < |s| && IsSpace(s[n])) && NoHeadingMark(StripHeadings(s[n..]))
    ensures NoHeadingMark(StripHeadings(s))
  {
    var n := LeadingRun(s, '#');
    var rest := StripHeadings(s[n..]);
    var r := s[..n] + rest;
    assert StripHeadings(s) == r;
    if n < |s| {
      StripHeadingsFirst(s[n..]);
    }
    forall i | 0 <= i < |r| - 1 && r[i] == '#' ensures !IsSpace(r[i + 1]) {
      if i + 1 < n {
        assert r[i + 1] == '#';
      } else if i + 1 == n {
        assert r[i + 1] == rest[0] == s[n];
      } else {
        assert r[i] == rest[i - n] && r[i + 1] == rest[i + 1 - n];
      }
    }
  }

  /** Any other character stays in front of the rest. */
  lemma PlainCharStep(s: string)
    requires s != [] && s[0] != '#' && NoHeadingMark(StripHeadings(s[1..]))
    ensures NoHeadingMark(StripHeadings(s))
  {
    var rest := StripHeadings(s[1..]);
    var r := [s[0]] + rest;
    assert StripHeadings(s) == r;
    forall i | 0 <= i < |r| - 1 && r[i] == '#' ensures !IsSpace(r[i + 1]) {
      assert i > 0;
      assert r[i] == rest[i - 1] && r[i + 1] == rest[i];
    }
  }

  predicate IsLowerAscii(c: char) {
    'a' <= c <= 'z'
  }

  /** How many lower-case ASCII letters the string starts with. */
  function LowerRun(s: string): (n: nat)
    ensures n <= |s|
    ensures forall i :: 0 <= i < n ==> IsLowerAscii(s[i])
    ensures n < |s| ==> !IsLowerAscii(s[n])
  {
    if s == [] || !IsLowerAscii(s[0]) then 0 else 1 + LowerRun(s[1..])
  }

  /** `/```[a-z]*\n/g` removed: an opening fence with its language tag and
      line break goes; a fence not followed by letters and a line break is
      left for the next pass. */
  function StripFenceOpenings(s: string): (r: string)
    ensures |r| <= |s|
    decreases |s|
  {
    if s == [] then ""
    else if StartsWith(s, "```") && 3 + LowerRun(s[3..]) < |s| && s[3 + LowerRun(s[3..])] == '\n' then
      StripFenceOpenings(s[3 + LowerRun(s[3..]) + 1..])
    else [s[0]] + StripFenceOpenings(s[1..])
  }

  /** An opening fence with a language tag is removed up to its line break. */
  lemma FenceOpeningRemoved(lang: string, rest: string)
    requires forall i :: 0 <= i < |lang| ==> IsLowerAscii(lang[i])
    ensures StripFenceOpenings("```" + lang + "\n" + rest) == StripFenceOpenings(rest)
  {
    var s := "```" + lang + "\n" + rest;
    assert s[..3] == "```";
    assert s[3..] == lang + "\n" + rest;
    LowerRunOf(lang, "\n" + rest);
    assert s[3 + |lang|] == '\n';
    assert s[3 + |lang| + 1..] == rest;
  }

  lemma {:induction false} LowerRunOf(lang: string, rest: string)
    requires forall i :: 0 <= i < |lang| ==> IsLowerAscii(lang[i])
    requires rest == [] || !IsLowerAscii(rest[0])
    ensures LowerRun(lang + rest) == |lang|
    decreases |lang|
  {
    if lang != [] {
      assert (lang + rest)[1..] == lang[1..] + rest;
      LowerRunOf(lang[1..], rest);
    } else {
      assert lang + rest == rest;
    }
  }

  const ArtifactTag := "[TRAINED_ARTIFACT:"
  const AttachmentLabel := "[ATTACHMENT]"

  /** The regular-expression `.`: anything but a line terminator. */
  predicate IsLineTerminator(c: char) {
    c == '\n' || c == '\r' || c == '\U{2028}' || c == '\U{2029}'
  }

  /** Where a lazy `.*?\]` stops: the index of the first `]` when no line
      terminator comes before it. */
  function CloseBracket(s: string): (r: Option<nat>)
    ensures r.Some? ==> (r.value < |s| && s[r.value] == ']' &&
      forall i :: 0 <= i < r.value ==> s[i] != ']' && !IsLineTerminator(s[i]))
  {
    if s == [] || IsLineTerminator(s[0]) then None
    else if s[0] == ']' then Some(0)
    else match CloseBracket(s[1..])
      case None => None
      case Some(j) => Some(j + 1)
  }

  /** `/\[TRAINED_ARTIFACT:.*?\]/g` replaced by `[ATTACHMENT]`. */
  function ReplaceArtifacts(s: string): string
    decreases |s|
  {
    if s == [] then ""
    else if StartsWith(s, ArtifactTag) && CloseBracket(s[|ArtifactTag|..]).Some? then
      AttachmentLabel + ReplaceArtifacts(s[|ArtifactTag| + CloseBracket(s[|ArtifactTag|..]).value + 1..])
    else [s[0]] + ReplaceArtifacts(s[1..])
  }

  /** Text without an opening bracket passes through the replacement. */
  lemma {:induction false} ReplaceArtifactsPlain(a: string, b: string)
    requires forall i :: 0 <= i < |a| ==> a[i] != '['
    ensures ReplaceArtifacts(a + b) == a + ReplaceArtifacts(b)
    decreases |a|
  {
    if a == [] {
      assert a + b == b;
    } else {
      var ab := a + b;
      assert ab[0] == a[0];
      assert ArtifactTag[0] == '[';
      assert !StartsWith(ab, ArtifactTag) by {
        if |ArtifactTag| <= |ab| {
          assert ab[..|ArtifactTag|][0] != ArtifactTag[0];
        }
      }
      var tail := a[1..];
      assert forall i :: 0 <= i < |tail| ==> tail[i] == a[i + 1];
      assert ab[1..] == tail + b;
      ReplaceArtifactsPlain(tail, b);
      assert a == [a[0]] + tail;
    }
  }

  /** A reference to a trained artifact on one line is replaced, name and
      all, by the attachment label. */
  lemma ArtifactReplaced(name: string, rest: string)
    requires forall i :: 0 <= i < |name| ==> name[i] != ']' && !IsLineTerminator(name[i])
    ensures ReplaceArtifacts(ArtifactTag + name + "]" + rest) == AttachmentLabel + ReplaceArtifacts(rest)
  {
    var s := ArtifactTag + name + "]" + rest;
    assert s[..|ArtifactTag|] == ArtifactTag;
    var tail := s[|ArtifactTag|..];
    assert tail == name + "]" + rest;
    CloseBracketAt(name, rest);
    assert s[|ArtifactTag| + |name| + 1..] == rest;
  }

  lemma {:induction false} CloseBracketAt(name: string, rest: string)
    requires forall i :: 0 <= i < |name| ==> name[i] != ']' && !IsLineTerminator(name[i])
    ensures CloseBracket(name + "]" + rest) == Some(|name|)
    decreases |name|
  {
    if name != [] {
      assert (name + "]" + rest)[1..] == name[1..] + "]" + rest;
      CloseBracketAt(name[1..], rest);
    } else {
      assert name + "]" + rest == "]" + rest;
    }
  }

  /** The cleaning chain of the PDF export, pass by pass. */
  function CleanMarkdown(content: string): string {
    ReplaceArtifacts(RemoveAll(StripFenceOpenings(RemoveAll(StripHeadings(content), "**")), "```"))
  }

  /** What each pass guarantees on its own output: no heading mark after
      the first, no `**` after the second, no fence after the fourth. */
  lemma CleaningPasses(content: string)
    ensures NoHeadingMark(StripHeadings(content))
    ensures Free(RemoveAll(StripHeadings(content), "**"), "**")
    ensures Free(RemoveAll(StripFenceOpenings(RemoveAll(StripHeadings(content), "**")), "```"), "```")
  {
    StripHeadingsComplete(content);
    assert Repeat('*', 2) == "**";
    assert Repeat('`', 3) == "```";
    RemoveRunComplete(StripHeadings(content), '*', 2);
    RemoveRunComplete(StripFenceOpenings(RemoveAll(StripHeadings(content), "**")), '`', 3);
  }

  // ------------------------------------------------------------ PDF pages

  /** Where one wrapped line is drawn: its page (from 0) and its height. */
  datatype Placement = Placement(page: nat, y: int, text: string)

  const FirstLineY := 40
  const PageTopY := 20
  const PageBottomY := 280
  const LineStep := 6

  /** The closed form of the layout: the first page holds 41 lines from
      y = 40, every later page 44 lines from y = 20, six apart. */
  function Slot(k: nat): (p: (nat, int))
    ensures PageTopY <= p.1 <= PageBottomY
  {
    if k <= 40 then (0, FirstLineY + LineStep * k)
    else (1 + (k - 41) / 44, PageTopY + LineStep * ((k - 41) % 44))
  }

  /** Each line's slot follows from the previous one by the loop's rule. */
  lemma SlotStep(k: nat)
    ensures var prev := Slot(k);
      Slot(k + 1) == if prev.1 + LineStep > PageBottomY then (prev.0 + 1, PageTopY) else (prev.0, prev.1 + LineStep)
  {
    if k >= 41 {
      var m := k - 41;
      if m % 44 == 43 {
        assert (m + 1) / 44 == m / 44 + 1 && (m + 1) % 44 == 0;
      } else {
        assert (m + 1) / 44 == m / 44 && (m + 1) % 44 == m % 44 + 1;
      }
    }
  }

  /** The drawing loop of `generatePDF`: a new page whenever y has passed
      280, a line drawn at y, then y advanced by 6. */
  method Paginate(lines: seq<string>) returns (placements: seq<Placement>, pageCount: nat)
    ensures |placements| == |lines|
    ensures forall k :: 0 <= k < |lines| ==>
      placements[k] == Placement(Slot(k).0, Slot(k).1, lines[k])
    ensures forall k :: 0 <= k < |lines| ==> PageTopY <= placements[k].y <= PageBottomY
    ensures pageCount == if lines == [] then 1 else Slot(|lines| - 1).0 + 1
  {
    var y := FirstLineY;
    var page: nat := 0;
    placements := [];
    for i := 0 to |lines|
      invariant |placements| == i
      invariant forall k :: 0 <= k < i ==> placements[k] == Placement(Slot(k).0, Slot(k).1, lines[k])
      invariant i == 0 ==> y == FirstLineY && page == 0
      invariant i > 0 ==> y == Slot(i - 1).1 + LineStep && page == Slot(i - 1).0
    {
      if i > 0 {
        SlotStep(i - 1);
      }
      if y > PageBottomY {
        page := page + 1;
        y := PageTopY;
      }
      placements := placements + [Placement(page, y, lines[i])];
      y := y + LineStep;
    }
    pageCount := page + 1;
  }

  /** The first page ends after 41 lines; the 42nd line opens page two at the top. */
  lemma SecondPageStartsAtTop()
    ensures Slot(40) == (0, 280) && Slot(41) == (1, 20) && Slot(85) == (2, 20)
  {
  }

  // ------------------------------------------------------ spreadsheet rows

  /** A markdown table separator such as `|---|---|`: a pipe, and nothing
      but pipes, dashes and whitespace. */
  predicate IsSeparator(line: string) {
    HasChar(line, '|') && forall i :: 0 <= i < |line| ==> line[i] == '|' || line[i] == '-' || IsSpace(line[i])
  }

  /** The two filters: not blank, not a separator. */
  predicate KeepLine(line: string) {
    Trim(line) != [] && !IsSeparator(line)
  }

  function KeptLines(lines: seq<string>): seq<string> {
    if lines == [] then [] else (if KeepLine(lines[0]) then [lines[0]] else []) + KeptLines(lines[1..])
  }

  /** The filters keep exactly the lines that are neither blank nor
      separators, in their order. */
  lemma {:induction false} KeptLinesFilter(lines: seq<string>)
    ensures |KeptLines(lines)| <= |lines|
    ensures forall k :: 0 <= k < |KeptLines(lines)| ==>
      KeptLines(lines)[k] in lines && !IsBlank(KeptLines(lines)[k]) && !IsSeparator(KeptLines(lines)[k])
    ensures forall l :: l in lines && KeepLine(l) ==> l in KeptLines(lines)
  {
    if lines != [] {
      KeptLinesFilter(lines[1..]);
      forall l | l in KeptLines(lines) ensures !IsBlank(l) {
        TrimEmptyIffBlank(l);
      }
    }
  }

  /** The filters work line by line: a single line stays exactly when it
      is kept, and filtering two runs of lines one after the other is
      filtering them together. */
  lemma {:induction false} KeptLinesConcat(a: seq<string>, b: seq<string>)
    ensures KeptLines(a + b) == KeptLines(a) + KeptLines(b)
    decreases |a|
  {
    if a == [] {
      assert a + b == b;
    } else {
      HeadOfConcat(a, b);
      KeptLinesConcat(a[1..], b);
      var head := if KeepLine(a[0]) then [a[0]] else [];
      calc {
        KeptLines(a + b);
        head + KeptLines(a[1..] + b);
        head + (KeptLines(a[1..]) + KeptLines(b));
        (head + KeptLines(a[1..])) + KeptLines(b);
        KeptLines(a) + KeptLines(b);
      }
    }
  }

  lemma KeptLinesSingle(line: string)
    ensures KeptLines([line]) == if KeepLine(line) then [line] else []
  {
    assert [line][1..] == [];
  }

  function TrimAll(cells: seq<string>): (r: seq<string>)
    ensures |r| == |cells|
    ensures forall k :: 0 <= k < |cells| ==> r[k] == Trim(cells[k])
  {
    seq(|cells|, k requires 0 <= k < |cells| => Trim(cells[k]))
  }

  /** The edge-cell filter: the first and last cells are kept only when
      non-empty, every inner cell is kept. */
  function TableCells(cells: seq<string>): (r: seq<string>)
    requires |cells| >= 2
    ensures |r| == |cells| - (if cells[0] == "" then 1 else 0) - (if cells[|cells| - 1] == "" then 1 else 0)
    ensures cells[0] != "" ==> r[0] == cells[0]
    ensures cells[|cells| - 1] != "" ==> r[|r| - 1] == cells[|cells| - 1]
    ensures var o := if cells[0] == "" then 0 else 1; r[o..o + |cells| - 2] == cells[1..|cells| - 1]
    ensures forall x :: x in r ==> x in cells
  {
    (if cells[0] != "" then [cells[0]] else [])
    + cells[1..|cells| - 1]
    + (if cells[|cells| - 1] != "" then [cells[|cells| - 1]] else [])
  }

  lemma SplitOnPresentSeparator(s: string, sep: char)
    requires HasChar(s, sep)
    ensures |Split(s, sep)| >= 2
  {
  }

  /** One row of the sheet. */
  function Row(line: string): (r: seq<string>)
    ensures HasChar(line, '|') ==> r == TableCells(TrimAll(Split(line, '|')))
    ensures !HasChar(line, '|') && HasChar(line, ':') && !StartsWith(line, "http") ==> r == TrimAll(Split(line, ':'))
    ensures !HasChar(line, '|') && !(HasChar(line, ':') && !StartsWith(line, "http")) ==> r == [line]
  {
    if HasChar(line, '|') then
      SplitOnPresentSeparator(line, '|');
      TableCells(TrimAll(Split(line, '|')))
    else if HasChar(line, ':') && !StartsWith(line, "http") then TrimAll(Split(line, ':'))
    else [line]
  }

  /** A key-value line gives one trimmed cell per colon-separated piece:
      splitting on every colon, so a value holding a colon is split too. */
  lemma KeyValueRow(line: string)
    requires !HasChar(line, '|') && HasChar(line, ':') && !StartsWith(line, "http")
    ensures |Row(line)| >= 2
    ensures forall k :: 0 <= k < |Row(line)| ==> Row(line)[k] == Trim(Split(line, ':')[k])
  {
    SplitOnPresentSeparator(line, ':');
  }

  /** Every cell of a table row is trimmed; only the first and last pieces
      of the line can be dropped, and only when empty. */
  lemma TableRowCells(line: string)
    requires HasChar(line, '|')
    ensures var pieces := TrimAll(Split(line, '|'));
      |pieces| >= 2 && |pieces| - 2 <= |Row(line)| <= |pieces| &&
      forall k :: 0 <= k < |Row(line)| ==> Row(line)[k] in pieces
  {
    SplitOnPresentSeparator(line, '|');
    var pieces := TrimAll(Split(line, '|'));
    var r := Row(line);
    assert r == TableCells(pieces);
    forall k | 0 <= k < |r| ensures r[k] in pieces {
      assert r[k] in r;
    }
  }

  /** The rows `generateExcel` hands to the sheet: one per kept line, in order. */
  function ExcelRows(content: string): (rows: seq<seq<string>>)
    ensures |rows| == |KeptLines(Split(content, '\n'))|
    ensures forall k :: 0 <= k < |rows| ==> rows[k] == Row(KeptLines(Split(content, '\n'))[k])
  {
    var lines := KeptLines(Split(content, '\n'));
    seq(|lines|, k requires 0 <= k < |lines| => Row(lines[k]))
  }

  /** Content of one line without pipes or colons is a single cell holding
      that line, untrimmed. */
  lemma PlainLineRow(line: string)
    requires !HasChar(line, '\n') && !HasChar(line, '|') && !HasChar(line, ':') && !IsBlank(line)
    ensures ExcelRows(line) == [[line]]
  {
    assert KeptLines(Split(line, '\n')) == [line] by {
      SplitWithoutSep(line, '\n');
      TrimEmptyIffBlank(line);
      assert KeepLine(line);
      assert [line][1..] == [];
    }
    var rows := ExcelRows(line);
    assert |rows| == 1 && rows[0] == Row(line);
    assert Row(line) == [line];
  }
}
