/**
 * The summary document of youtube_samenvatting.py (`create_word_document`): a header, then
 * one block per non-blank line of the model's markdown-like answer. The document is the
 * sequence of blocks a word-processor file would hold; writing the file is not modelled.
 */
module Document {
  import opened Wrappers
  import opened Text

  /** A stretch of paragraph text, bold or not. */
  datatype Run = Run(text: string, bold: bool)

  datatype Style = Normal | ListBullet | ListNumber

  datatype Block =
    | Heading(level: nat, text: string)
    | Paragraph(style: Style, runs: seq<Run>)

  /** The horizontal rule: fifty box-drawing characters. */
  const RuleText: string := Repeat('\U{2500}', 50)

  // ---- the bold markup `**text**` ------------------------------------------------------

  /** A span matched by the pattern `\*\*[^*]+\*\*`. */
  predicate IsBoldSpan(t: string) {
    && |t| >= 5
    && t[0] == '*' && t[1] == '*' && t[|t| - 2] == '*' && t[|t| - 1] == '*'
    && forall m :: 2 <= m < |t| - 2 ==> t[m] != '*'
  }

  /** The first asterisk at or after `from`, or `|s|`. */
  function StarFrom(s: string, from: nat): (r: nat)
    requires from <= |s|
    ensures from <= r <= |s|
    ensures r < |s| ==> s[r] == '*'
    ensures forall k :: from <= k < r ==> s[k] != '*'
    decreases |s| - from
  {
    if from == |s| || s[from] == '*' then from else StarFrom(s, from + 1)
  }

  /** The end of the bold span that starts at `i`, if one does (the span is unique). */
  function BoldEndAt(s: string, i: nat): (r: Option<nat>)
    requires i <= |s|
    ensures r.Some? ==> i < r.value <= |s| && IsBoldSpan(s[i..r.value])
    ensures r.None? ==> forall e :: i <= e <= |s| ==> !IsBoldSpan(s[i..e])
  {
    forall e | i <= e <= |s| {
      SpanShape(s, i, e);
    }
    if i + 1 < |s| && s[i] == '*' && s[i + 1] == '*' then
      var j := StarFrom(s, i + 2);
      if j > i + 2 && j + 1 < |s| && s[j + 1] == '*' then
        Some(j + 2)
      else
        None
    else
      None
  }

  /** A span from `i` to `e` is bold exactly when the scan from `i` ends there. */
  lemma SpanShape(s: string, i: nat, e: nat)
    requires i <= e <= |s|
    ensures IsBoldSpan(s[i..e]) <==>
      && i + 1 < |s| && s[i] == '*' && s[i + 1] == '*'
      && StarFrom(s, i + 2) == e - 2 && e - 2 > i + 2 && s[e - 1] == '*'
  {
    var t := s[i..e];
    if IsBoldSpan(t) {
      forall k | i + 2 <= k < e - 2 ensures s[k] != '*' {
        assert t[k - i] == s[k];
      }
      assert t[|t| - 2] == s[e - 2] && t[|t| - 1] == s[e - 1];
      assert t[0] == s[i] && t[1] == s[i + 1];
    }
    if && i + 1 < |s| && s[i] == '*' && s[i + 1] == '*'
       && StarFrom(s, i + 2) == e - 2 && e - 2 > i + 2 && s[e - 1] == '*'
    {
      forall m | 2 <= m < |t| - 2 ensures t[m] != '*' {
        assert t[m] == s[i + m];
      }
    }
  }

  /** The leftmost bold span starting at or after `from`: its start. */
  function FindBold(s: string, from: nat): (r: Option<nat>)
    requires from <= |s|
    ensures r.Some? ==> from <= r.value < |s| && BoldEndAt(s, r.value).Some?
    ensures forall k :: from <= k <= |s| && (r.None? || k < r.value) ==> BoldEndAt(s, k).None?
    decreases |s| - from
  {
    if from == |s| then None
    else if BoldEndAt(s, from).Some? then Some(from)
    else FindBold(s, from + 1)
  }

  /** `re.split(r'(\*\*[^*]+\*\*)', s[from:])`: the text between spans and the spans themselves
      (the pattern's group is kept), alternating, starting and ending with text. */
  function SplitBoldFrom(s: string, from: nat): (parts: seq<string>)
    requires from <= |s|
    ensures |parts| % 2 == 1
    decreases |s| - from
  {
    match FindBold(s, from)
    case None => [s[from..]]
    case Some(i) =>
      var e := BoldEndAt(s, i).value;
      [s[from..i], s[i..e]] + SplitBoldFrom(s, e)
  }

  function SplitBold(line: string): (parts: seq<string>)
    ensures |parts| % 2 == 1
    ensures Join(parts, "") == line
  {
    SplitBoldJoin(line, 0);
    assert line[0..] == line;
    SplitBoldFrom(line, 0)
  }

  /** `t` holds no bold span anywhere. */
  ghost predicate Plain(t: string) {
    forall a, b :: 0 <= a <= b <= |t| ==> !IsBoldSpan(t[a..b])
  }

  /** Text from `from` up to `i` holds no span when none starts before `i`. */
  lemma PlainBetween(s: string, from: nat, i: nat)
    requires from <= i <= |s|
    requires forall k :: from <= k < i ==> BoldEndAt(s, k).None?
    ensures Plain(s[from..i])
  {
    var t := s[from..i];
    forall a, b | 0 <= a <= b <= |t| ensures !IsBoldSpan(t[a..b]) {
      SliceOfSlice(s, from, i, a, b);
      if a < |t| {
        assert BoldEndAt(s, from + a).None?;
      }
    }
  }

  /** The split loses nothing: gluing the parts back gives the text. */
  lemma {:induction false} SplitBoldJoin(s: string, from: nat)
    requires from <= |s|
    ensures Join(SplitBoldFrom(s, from), "") == s[from..]
    decreases |s| - from
  {
    match FindBold(s, from)
    case None =>
      assert SplitBoldFrom(s, from) == [s[from..]];
    case Some(i) =>
      var e := BoldEndAt(s, i).value;
      var text, span, rest := s[from..i], s[i..e], SplitBoldFrom(s, e);
      assert SplitBoldFrom(s, from) == [text] + ([span] + rest);
      SplitBoldJoin(s, e);
      JoinTextSpan(text, span, rest);
      DropSplit(s, i, e);
      DropSplit(s, from, i);
      assert text + (span + s[e..]) == s[from..];
  }

  lemma JoinTextSpan(text: string, span: string, rest: seq<string>)
    requires rest != []
    ensures Join([text] + ([span] + rest), "") == text + (span + Join(rest, ""))
  {
    JoinCons(span, rest, "");
    JoinCons(text, [span] + rest, "");
    assert span + "" == span && text + "" == text;
  }

  /** The odd-numbered parts are exactly the bold spans, and the parts between them hold none. */
  lemma {:induction false} SplitBoldParts(s: string, from: nat)
    requires from <= |s|
    ensures forall k :: 0 <= k < |SplitBoldFrom(s, from)| && k % 2 == 1 ==> IsBoldSpan(SplitBoldFrom(s, from)[k])
    ensures forall k :: 0 <= k < |SplitBoldFrom(s, from)| && k % 2 == 0 ==> Plain(SplitBoldFrom(s, from)[k])
    decreases |s| - from
  {
    var parts := SplitBoldFrom(s, from);
    match FindBold(s, from)
    case None =>
      PlainBetween(s, from, |s|);
      assert s[from..|s|] == s[from..];
    case Some(i) =>
      var e := BoldEndAt(s, i).value;
      var rest := SplitBoldFrom(s, e);
      SplitBoldParts(s, e);
      PlainBetween(s, from, i);
      assert parts == [s[from..i], s[i..e]] + rest;
      forall k | 0 <= k < |parts| && k % 2 == 1 ensures IsBoldSpan(parts[k]) {
        if k == 1 {
          assert parts[k] == s[i..e];
        } else {
          assert parts[k] == rest[k - 2] && (k - 2) % 2 == 1;
        }
      }
      forall k | 0 <= k < |parts| && k % 2 == 0 ensures Plain(parts[k]) {
        if k == 0 {
          assert parts[k] == s[from..i];
        } else {
          assert parts[k] == rest[k - 2] && (k - 2) % 2 == 0;
        }
      }
  }

  /** `part[2:-2]`: empty when the part is shorter than four characters. */
  function Inner(part: string): string {
    if |part| >= 4 then part[2..|part| - 2] else ""
  }

  /** A part becomes a bold run of its inside when it starts and ends with `**`. */
  function RunOf(part: string): Run {
    if StartsWith(part, "**") && EndsWith(part, "**") then Run(Inner(part), true) else Run(part, false)
  }

  function RunsOf(parts: seq<string>): (runs: seq<Run>)
    ensures |runs| == |parts|
    ensures forall k :: 0 <= k < |parts| ==> runs[k] == RunOf(parts[k])
  {
    seq(|parts|, k requires 0 <= k < |parts| => RunOf(parts[k]))
  }

  /** A run written back as markup. */
  function Markup(r: Run): string {
    if r.bold then "**" + r.text + "**" else r.text
  }

  function MarkupAll(runs: seq<Run>): string {
    if runs == [] then "" else MarkupAll(runs[..|runs| - 1]) + Markup(runs[|runs| - 1])
  }

  /** A bold span becomes a bold run whose text is the span's inside, which is never empty and
      holds no asterisk; written back, the run is the span again. */
  lemma BoldSpanRun(part: string)
    requires IsBoldSpan(part)
    ensures RunOf(part).bold && |RunOf(part).text| == |part| - 4 >= 1
    ensures '*' !in RunOf(part).text
    ensures Markup(RunOf(part)) == part
  {
    assert part[..2] == "**";
    assert part[|part| - 2..] == "**";
    var inner := part[2..|part| - 2];
    forall m | 0 <= m < |inner| ensures inner[m] != '*' {
      assert inner[m] == part[m + 2];
    }
    assert part == part[..2] + inner + part[|part| - 2..];
  }

  // ---- the line classifier --------------------------------------------------------------

  predicate IsDigit(c: char) {
    '0' <= c <= '9'
  }

  /** The first non-digit at or after `from`. */
  function DigitsEnd(s: string, from: nat): (r: nat)
    requires from <= |s|
    ensures from <= r <= |s| && (r < |s| ==> !IsDigit(s[r]))
    ensures forall k :: from <= k < r ==> IsDigit(s[k])
    decreases |s| - from
  {
    if from < |s| && IsDigit(s[from]) then DigitsEnd(s, from + 1) else from
  }

  /** The length of the match of `^\d+\. ` at the start of `line`, if it matches. */
  function NumberPrefix(line: string): (r: Option<nat>)
    ensures r.Some? ==> 3 <= r.value <= |line| && line[r.value - 2] == '.' && line[r.value - 1] == ' '
    ensures r.Some? ==> forall k :: 0 <= k < r.value - 2 ==> IsDigit(line[k])
    ensures r.None? ==>
      forall n :: 1 <= n < |line| - 1 && (forall k :: 0 <= k < n ==> IsDigit(line[k])) ==>
        !(line[n] == '.' && line[n + 1] == ' ')
  {
    var d := DigitsEnd(line, 0);
    if d >= 1 && d + 2 <= |line| && line[d] == '.' && line[d + 1] == ' ' then
      Some(d + 2)
    else
      forall n | 1 <= n < |line| - 1 && (forall k :: 0 <= k < n ==> IsDigit(line[k]))
        ensures !(line[n] == '.' && line[n + 1] == ' ')
      {
        if n < d {
          assert IsDigit(line[n]);
        }
      }
      None
  }

  /** The block one stripped, non-empty line becomes, by the first rule that applies. No
      line matches two of the rules, so each prefix alone decides the block, and a line
      matching none is a paragraph of its bold and plain parts. */
  function ClassifyLine(line: string): (b: Block)
    ensures b.Heading? <==> StartsWith(line, "## ") || StartsWith(line, "### ")
    ensures b.Heading? ==> (b.level == 1 || b.level == 2) && EndsWith(line, b.text) && |b.text| == |line| - b.level - 2
    ensures b.Paragraph? && b.style != Normal ==> |b.runs| == 1 && !b.runs[0].bold && EndsWith(line, b.runs[0].text)
    ensures b.Paragraph? && b.style == ListBullet ==> StartsWith(line, "- ")
    ensures b.Paragraph? && b.style == ListNumber ==> NumberPrefix(line).Some?
    ensures StartsWith(line, "## ") ==> b == Heading(1, line[3..])
    ensures StartsWith(line, "### ") ==> b == Heading(2, line[4..])
    ensures StartsWith(line, "- ") ==> b == Paragraph(ListBullet, [Run(line[2..], false)])
    ensures NumberPrefix(line).Some? ==> b == Paragraph(ListNumber, [Run(line[NumberPrefix(line).value..], false)])
    ensures StartsWith(line, "---") ==> b == Paragraph(Normal, [Run(RuleText, false)])
    ensures !MarkedLine(line) ==> b == Paragraph(Normal, RunsOf(SplitBold(line)))
  {
    RulesExclusive(line);
    if StartsWith(line, "## ") then Heading(1, line[3..])
    else if StartsWith(line, "### ") then Heading(2, line[4..])
    else if StartsWith(line, "- ") then Paragraph(ListBullet, [Run(line[2..], false)])
    else if NumberPrefix(line).Some? then Paragraph(ListNumber, [Run(line[NumberPrefix(line).value..], false)])
    else if StartsWith(line, "---") then Paragraph(Normal, [Run(RuleText, false)])
    else Paragraph(Normal, RunsOf(SplitBold(line)))
  }

  /** The line starts with one of the markers `create_word_document` looks for. */
  predicate MarkedLine(line: string) {
    || StartsWith(line, "## ") || StartsWith(line, "### ") || StartsWith(line, "- ")
    || NumberPrefix(line).Some? || StartsWith(line, "---")
  }

  /** No line starts with two of the markers. */
  lemma RulesExclusive(line: string)
    ensures !(StartsWith(line, "## ") && StartsWith(line, "### "))
    ensures StartsWith(line, "- ") || NumberPrefix(line).Some? || StartsWith(line, "---") ==>
      !StartsWith(line, "## ") && !StartsWith(line, "### ")
    ensures !(StartsWith(line, "- ") && NumberPrefix(line).Some?)
    ensures !(StartsWith(line, "- ") && StartsWith(line, "---"))
    ensures !(NumberPrefix(line).Some? && StartsWith(line, "---"))
  {
    if StartsWith(line, "## ") {
      assert line[0] == '#' && line[2] == ' ' by { assert line[..3] == "## "; }
    }
    if StartsWith(line, "### ") {
      assert line[0] == '#' && line[2] == '#' by { assert line[..4] == "### "; }
    }
    if StartsWith(line, "- ") {
      assert line[0] == '-' && line[1] == ' ' by { assert line[..2] == "- "; }
    }
    if StartsWith(line, "---") {
      assert line[0] == '-' && line[1] == '-' by { assert line[..3] == "---"; }
    }
    if NumberPrefix(line).Some? {
      assert IsDigit(line[0]);
    }
  }

  /** A multi-digit item number is dropped with its dot, and a rule may carry text after it. */
  lemma ClassifyExamples()
    ensures ClassifyLine("12. x") == Paragraph(ListNumber, [Run("x", false)])
    ensures ClassifyLine("--- x") == Paragraph(Normal, [Run(RuleText, false)])
  {
    var item := "12. x";
    assert DigitsEnd(item, 2) == 2 && DigitsEnd(item, 1) == 2 && DigitsEnd(item, 0) == 2;
    assert item[4..] == "x";
    assert StartsWith("--- x", "---") by { assert "--- x"[..3] == "---"; }
  }

  /** Each block kind written as the markup that produces it, numbered items as item 1. */
  function MarkupLine(b: Block): string {
    match b
    case Heading(level, text) => (if level == 1 then "## " else "### ") + text
    case Paragraph(ListBullet, runs) => "- " + MarkupAll(runs)
    case Paragraph(ListNumber, runs) => "1. " + MarkupAll(runs)
    case Paragraph(Normal, runs) => "---"
  }

  /** The blocks with their own markup: second- and third-level headings, list items holding
      one plain run, and the rule. */
  predicate HasMarkup(b: Block) {
    match b
    case Heading(level, _) => level == 1 || level == 2
    case Paragraph(Normal, runs) => runs == [Run(RuleText, false)]
    case Paragraph(_, runs) => |runs| == 1 && !runs[0].bold
  }

  /** A block with markup whose line needs no stripping and holds no line break. */
  predicate Canonical(b: Block) {
    HasMarkup(b) && '\n' !in MarkupLine(b) && Trimmed(MarkupLine(b))
  }

  predicate AllCanonical(blocks: seq<Block>) {
    blocks == [] || (AllCanonical(blocks[..|blocks| - 1]) && Canonical(blocks[|blocks| - 1]))
  }

  /** Classifying the markup of such a block gives the block back. */
  lemma ClassifyMarkup(b: Block)
    requires HasMarkup(b)
    ensures ClassifyLine(MarkupLine(b)) == b
  {
    match b
    case Heading(level, text) => ClassifyHeading(level, text);
    case Paragraph(ListBullet, runs) =>
      assert MarkupAll(runs) == runs[0].text by { assert runs[..0] == []; }
      ClassifyItem("- ", runs[0].text);
    case Paragraph(ListNumber, runs) =>
      assert MarkupAll(runs) == runs[0].text by { assert runs[..0] == []; }
      ClassifyItem("1. ", runs[0].text);
    case Paragraph(Normal, runs) => ClassifyRule();
  }

  lemma ClassifyHeading(level: nat, text: string)
    requires level == 1 || level == 2
    ensures ClassifyLine(MarkupLine(Heading(level, text))) == Heading(level, text)
  {
    var line := MarkupLine(Heading(level, text));
    if level == 1 {
      assert line[..3] == "## " && line[3..] == text;
    } else {
      assert line[..4] == "### " && line[4..] == text;
      assert line[2] == '#';
    }
  }

  /** A bullet or an item numbered 1, followed by its text. */
  lemma ClassifyItem(marker: string, text: string)
    requires marker == "- " || marker == "1. "
    ensures marker == "- " ==> ClassifyLine(marker + text) == Paragraph(ListBullet, [Run(text, false)])
    ensures marker == "1. " ==> ClassifyLine(marker + text) == Paragraph(ListNumber, [Run(text, false)])
  {
    var line := marker + text;
    FirstCharMismatch(line, "## ");
    FirstCharMismatch(line, "### ");
    if marker == "- " {
      assert line[..2] == "- " && line[2..] == text;
    } else {
      assert line[3..] == text && line[1] == '.';
      assert DigitsEnd(line, 1) == 1;
      FirstCharMismatch(line, "- ");
    }
  }

  lemma ClassifyRule()
    ensures ClassifyLine("---") == Paragraph(Normal, [Run(RuleText, false)])
  {
    var line := "---";
    assert DigitsEnd(line, 0) == 0;
    FirstCharMismatch(line, "## ");
    FirstCharMismatch(line, "### ");
    assert !StartsWith(line, "- ") by { assert line[..2] == "--"; }
  }

  /** A paragraph's runs, written back as markup, give the line again, unless a piece of
      plain text is a bare `**` or `***`, which the source turns into an empty bold run. */
  lemma {:induction false} ParagraphMarkup(parts: seq<string>)
    requires forall k :: 0 <= k < |parts| && k % 2 == 1 ==> IsBoldSpan(parts[k])
    requires forall k :: 0 <= k < |parts| && k % 2 == 0 ==> parts[k] != "**" && parts[k] != "***"
    ensures MarkupAll(RunsOf(parts)) == Join(parts, "")
    decreases |parts|
  {
    if parts != [] {
      var front, last := parts[..|parts| - 1], parts[|parts| - 1];
      var runs := RunsOf(parts);
      assert runs[..|runs| - 1] == RunsOf(front);
      assert MarkupAll(runs) == MarkupAll(RunsOf(front)) + Markup(RunOf(last));
      ParagraphMarkup(front);
      RunMarkup(last);
      JoinPlainSnoc(parts);
    }
  }

  /** Joining without a separator appends the last part to the join of the others. */
  lemma JoinPlainSnoc(parts: seq<string>)
    requires parts != []
    ensures Join(parts, "") == Join(parts[..|parts| - 1], "") + parts[|parts| - 1]
  {
    if |parts| == 1 {
      assert parts[..0] == [];
    } else {
      var front := Join(parts[..|parts| - 1], "");
      assert front + "" == front;
    }
  }

  /** The only parts shorter than four characters that start and end with `**`. */
  lemma ShortWrapped(part: string)
    ensures StartsWith(part, "**") && EndsWith(part, "**") && |part| < 4 ==> part == "**" || part == "***"
  {
    if StartsWith(part, "**") && EndsWith(part, "**") && |part| < 4 {
      assert part[..2] == "**" && part[|part| - 2..] == "**";
      if |part| == 2 {
        assert part == part[..2];
      } else {
        assert part == part[..2] + part[|part| - 1..];
        assert part[|part| - 1..] == part[|part| - 2..][1..];
      }
    }
  }

  lemma RunMarkup(part: string)
    requires part != "**" && part != "***"
    ensures Markup(RunOf(part)) == part
  {
    ShortWrapped(part);
    if StartsWith(part, "**") && EndsWith(part, "**") {
      assert part == part[..2] + part[2..|part| - 2] + part[|part| - 2..];
    }
  }

  /** The paragraph a plain line becomes keeps its text: bold spans become bold runs of their
      inside, the text around them plain runs, in order. */
  lemma ParagraphKeepsText(line: string)
    requires forall k :: 0 <= k < |SplitBold(line)| && k % 2 == 0 ==> SplitBold(line)[k] != "**" && SplitBold(line)[k] != "***"
    ensures MarkupAll(RunsOf(SplitBold(line))) == line
    ensures forall k :: 0 <= k < |SplitBold(line)| && k % 2 == 1 ==>
      RunsOf(SplitBold(line))[k].bold && RunsOf(SplitBold(line))[k].text != "" && '*' !in RunsOf(SplitBold(line))[k].text
  {
    SplitBoldParts(line, 0);
    SplitBoldJoin(line, 0);
    ParagraphMarkup(SplitBold(line));
    forall k | 0 <= k < |SplitBold(line)| && k % 2 == 1
      ensures RunsOf(SplitBold(line))[k].bold && RunsOf(SplitBold(line))[k].text != ""
      ensures '*' !in RunsOf(SplitBold(line))[k].text
    {
      BoldSpanRun(SplitBold(line)[k]);
    }
  }

  // ---- the document ---------------------------------------------------------------------

  /** The title, the metadata paragraph and the empty spacing paragraph. `date` is the
      formatted time of writing, which the source reads from the clock. */
  function Header(title: string, videoId: string, provider: string, model: Option<string>, date: string): (h: seq<Block>)
    ensures |h| == 3 && h[0] == Heading(0, title) && h[2] == Paragraph(Normal, [])
    ensures h[1].Paragraph? && h[1].style == Normal && |h[1].runs| == 6
    ensures forall k :: 0 <= k < |h[1].runs| ==> (h[1].runs[k].bold <==> k % 2 == 0)
    ensures h[1].runs[0].text == "Video: " && h[1].runs[2].text == "Datum: " && h[1].runs[4].text == "Model: "
    ensures h[1].runs[1].text == "https://youtube.com/watch?v=" + videoId + "\n"
    ensures h[1].runs[3].text == date + "\n"
    ensures h[1].runs[5].text == if model.Some? && model.value != "" then provider + " (" + model.value + ")" else provider
  {
    var modelNote := if model.Some? && model.value != "" then " (" + model.value + ")" else "";
    [ Heading(0, title),
      Paragraph(Normal, [
        Run("Video: ", true), Run("https://youtube.com/watch?v=" + videoId + "\n", false),
        Run("Datum: ", true), Run(date + "\n", false),
        Run("Model: ", true), Run(provider + modelNote, false)]),
      Paragraph(Normal, []) ]
  }

  /** The blocks of the summary's lines: each line stripped, blank ones skipped. */
  function BlocksOf(lines: seq<string>): (blocks: seq<Block>)
    ensures |blocks| <= |lines|
  {
    if lines == [] then [] else BlocksOf(lines[..|lines| - 1]) + LineBlocks(lines[|lines| - 1])
  }

  /** What one line adds: nothing when blank, else the block its stripped text is. */
  function LineBlocks(line: string): seq<Block> {
    if Strip(line) == "" then [] else [ClassifyLine(Strip(line))]
  }

  lemma BlocksOfStep(lines: seq<string>, i: nat)
    requires i < |lines|
    ensures BlocksOf(lines[..i + 1]) == BlocksOf(lines[..i]) + LineBlocks(lines[i])
  {
    assert lines[..i + 1] == lines[..i] + [lines[i]];
    BlocksOfSnoc(lines[..i], lines[i]);
  }

  /** One more line adds its own blocks after those of the lines before. */
  lemma BlocksOfSnoc(lines: seq<string>, line: string)
    ensures BlocksOf(lines + [line]) == BlocksOf(lines) + LineBlocks(line)
  {
    assert (lines + [line])[..|lines|] == lines;
  }

  /** `create_word_document`: the header, then the blocks of the summary's lines. */
  method CreateWordDocument(title: string, videoId: string, provider: string, model: Option<string>,
                            date: string, summary: string) returns (doc: seq<Block>)
    ensures doc == Header(title, videoId, provider, model, date) + BlocksOf(Split(summary, '\n'))
  {
    var header := Header(title, videoId, provider, model, date);
    var body := AddLines(Split(summary, '\n'));
    doc := header + body;
  }

  /** `create_word_document`'s line loop. */
  method AddLines(lines: seq<string>) returns (body: seq<Block>)
    ensures body == BlocksOf(lines)
  {
    body := [];
    for i := 0 to |lines|
      invariant body == BlocksOf(lines[..i])
    {
      var line := Strip(lines[i]);
      BlocksOfStep(lines, i);
      if line != "" {
        body := body + [ClassifyLine(line)];
      } else {
        assert body + LineBlocks(lines[i]) == body;
      }
    }
    assert lines[..|lines|] == lines;
  }

  /** The body is built line by line: the blocks of two runs of lines are those of each. */
  lemma {:induction false} BlocksOfAppend(a: seq<string>, b: seq<string>)
    ensures BlocksOf(a + b) == BlocksOf(a) + BlocksOf(b)
    decreases |b|
  {
    if b == [] {
      assert a + b == a;
    } else {
      var front, last := b[..|b| - 1], b[|b| - 1];
      assert a + b == (a + front) + [last];
      assert b == front + [last];
      BlocksOfAppend(a, front);
      BlocksOfSnoc(a + front, last);
      BlocksOfSnoc(front, last);
      AppendAssociative(BlocksOf(a), BlocksOf(front), LineBlocks(last));
    }
  }

  /** Blank lines add nothing; every other line adds exactly the block its stripped text
      is classified as, whatever whitespace surrounds it. */
  lemma BlocksOfLine(line: string, pad: string)
    requires AllSpace(pad)
    ensures Strip(line) == "" ==> BlocksOf([line]) == []
    ensures Strip(line) != "" ==> BlocksOf([pad + line]) == [ClassifyLine(Strip(line))]
  {
    BlocksOfSnoc([], line);
    BlocksOfSnoc([], pad + line);
    assert [] + [line] == [line] && [] + [pad + line] == [pad + line];
    StripAfterSpaces(pad, line);
  }

  /** A summary written as lines of markup comes back as the blocks those lines describe. */
  lemma MarkupDocument(blocks: seq<Block>)
    requires |blocks| >= 1 && AllCanonical(blocks)
    ensures BlocksOf(Split(Join(MarkupLines(blocks), "\n"), '\n')) == blocks
  {
    MarkupLinesNoNewline(blocks);
    SplitJoin(MarkupLines(blocks), '\n');
    MarkupLinesBlocks(blocks);
  }

  function MarkupLines(blocks: seq<Block>): (lines: seq<string>)
    ensures |lines| == |blocks|
  {
    if blocks == [] then [] else MarkupLines(blocks[..|blocks| - 1]) + [MarkupLine(blocks[|blocks| - 1])]
  }

  /** The markup lines of canonical blocks hold no line break. */
  lemma {:induction false} MarkupLinesNoNewline(blocks: seq<Block>)
    requires AllCanonical(blocks)
    ensures forall k :: 0 <= k < |blocks| ==> '\n' !in MarkupLines(blocks)[k]
    decreases |blocks|
  {
    if blocks != [] {
      var front := blocks[..|blocks| - 1];
      MarkupLinesNoNewline(front);
      forall k | 0 <= k < |blocks| ensures '\n' !in MarkupLines(blocks)[k] {
        if k < |front| {
          assert MarkupLines(blocks)[k] == MarkupLines(front)[k];
        }
      }
    }
  }

  lemma {:induction false} MarkupLinesBlocks(blocks: seq<Block>)
    requires AllCanonical(blocks)
    ensures BlocksOf(MarkupLines(blocks)) == blocks
    decreases |blocks|
  {
    if blocks != [] {
      var front, last := blocks[..|blocks| - 1], blocks[|blocks| - 1];
      assert blocks == front + [last];
      var line := MarkupLine(last);
      assert MarkupLines(blocks) == MarkupLines(front) + [line];
      MarkupLinesBlocks(front);
      CanonicalLine(last);
      BlocksOfSnoc(MarkupLines(front), line);
      assert LineBlocks(line) == [last];
    }
  }

  /** The markup line of a canonical block is its own stripped text and is classified back. */
  lemma CanonicalLine(b: Block)
    requires Canonical(b)
    ensures Strip(MarkupLine(b)) == MarkupLine(b) != "" && ClassifyLine(MarkupLine(b)) == b
  {
    ClassifyMarkup(b);
    StripTrimmed(MarkupLine(b));
    MarkupLineNonEmpty(b);
  }

  lemma MarkupLineNonEmpty(b: Block)
    ensures |MarkupLine(b)| >= 2
  {
    match b
    case Heading(level, text) =>
    case Paragraph(ListBullet, runs) =>
    case Paragraph(ListNumber, runs) =>
    case Paragraph(Normal, runs) =>
  }

}
