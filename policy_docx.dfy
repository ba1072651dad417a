/** The line segmenter of the quality-policy document generator: the template text is split
    into lines, each trimmed line is classified, and the lines become paragraph descriptors
    (headings, numbered items, runs of placeholder text, and body paragraphs gathered from
    consecutive plain lines). Rendering the descriptors into a Word file is not modelled. */
module PolicyDocx {
  import opened Wrappers
  import opened Seqs
  import opened Text

  /** A run of text; `styled` runs are the bracketed placeholders (bold, italic, coloured). */
  datatype Run = Run(text: string, styled: bool)

  datatype Paragraph =
    | Body(text: string)
    | Heading(text: string)
    | ListItem(text: string)
    | Placeholders(runs: seq<Run>)

  /** The paragraphs emitted so far and the plain lines waiting to be joined. */
  datatype State = State(children: seq<Paragraph>, pending: seq<string>)

  // ---------------------------------------------------------------------------------------
  // Placeholder runs
  // ---------------------------------------------------------------------------------------

  /** `s.indexOf(c)`: the first index of `c`, or -1. */
  function IndexOf(s: string, c: char): (r: int)
    ensures -1 <= r < |s|
    ensures r >= 0 ==> s[r] == c
    ensures r == -1 <==> c !in s
  {
    if s == [] then -1
    else if s[0] == c then 0
    else
      var k := IndexOf(s[1..], c);
      if k < 0 then -1 else k + 1
  }

  /** Where the leftmost match of `\[.*?\]` starts: at the first `[`, provided a `]` follows
      it (when the first `[` has no `]` after it, no later one has), and -1 otherwise. */
  function MatchStart(s: string): (r: int)
    ensures -1 <= r < |s|
    ensures r >= 0 ==> s[r] == '[' && ']' in s[r + 1..]
  {
    var i := IndexOf(s, '[');
    if i < 0 || IndexOf(s[i + 1..], ']') < 0 then -1 else i
  }

  /** Where that match ends: the first `]` after its start (the lazy `.*?`). */
  function MatchEnd(s: string): (r: int)
    requires MatchStart(s) >= 0
    ensures MatchStart(s) < r < |s| && s[r] == ']'
  {
    var i := MatchStart(s);
    i + 1 + IndexOf(s[i + 1..], ']')
  }

  /** `line.split(/(\[.*?\])/g)`: the text before each match, the match itself, and so on,
      ending with the text after the last match (possibly empty). */
  function Segments(s: string): (r: seq<string>)
    ensures |r| >= 1
    decreases |s|
  {
    if MatchStart(s) < 0 then [s]
    else
      var i, j := MatchStart(s), MatchEnd(s);
      [s[..i], s[i..j + 1]] + Segments(s[j + 1..])
  }

  /** The concatenation of some strings. */
  function Flatten(parts: seq<string>): string
  {
    if parts == [] then "" else parts[0] + Flatten(parts[1..])
  }

  /** The concatenation of a sequence that starts with two given strings. */
  lemma FlattenCons(r: seq<string>, a: string, b: string, rest: seq<string>)
    requires r == [a, b] + rest
    ensures Flatten(r) == a + (b + Flatten(rest))
  {
    assert r[1..] == [b] + rest;
    assert r[1..][1..] == rest;
  }

  /** One match: the text before it, the match, then the segments of the rest. */
  lemma SegmentsUnfold(s: string)
    requires MatchStart(s) >= 0
    ensures Segments(s) == [s[..MatchStart(s)], s[MatchStart(s)..MatchEnd(s) + 1]]
                           + Segments(s[MatchEnd(s) + 1..])
  {
  }

  /** The segments put back together give the line. */
  lemma {:induction false} SegmentsPartition(s: string)
    ensures Flatten(Segments(s)) == s
    decreases |s|
  {
    if MatchStart(s) < 0 {
      assert Flatten(Segments(s)) == s by {
        assert Segments(s) == [s];
        assert Flatten([s]) == s + Flatten([]);
      }
    } else {
      SegmentsPartition(s[MatchEnd(s) + 1..]);
      SegmentsUnfold(s);
      FlattenCons(Segments(s), s[..MatchStart(s)], s[MatchStart(s)..MatchEnd(s) + 1],
                  Segments(s[MatchEnd(s) + 1..]));
      ThreeSlices(s, MatchStart(s), MatchEnd(s) + 1);
    }
  }

  /** Every second element, from the second on, is bracketed. */
  predicate OddBracketed(parts: seq<string>)
  {
    |parts| <= 1 || (Bracketed(parts[1]) && OddBracketed(parts[2..]))
  }

  /** Every second segment is a bracketed placeholder. */
  lemma {:induction false} SegmentsAlternate(s: string)
    ensures OddBracketed(Segments(s))
    decreases |s|
  {
    if MatchStart(s) >= 0 {
      SegmentsAlternate(s[MatchEnd(s) + 1..]);
      SegmentsUnfold(s);
      MatchIsBracketed(s);
      OddBracketedCons(Segments(s), s[..MatchStart(s)], s[MatchStart(s)..MatchEnd(s) + 1],
                       Segments(s[MatchEnd(s) + 1..]));
    } else {
      assert Segments(s) == [s];
    }
  }

  /** Prefixing a plain part and a bracketed one keeps every second part bracketed. */
  lemma OddBracketedCons(r: seq<string>, a: string, b: string, rest: seq<string>)
    requires r == [a, b] + rest && Bracketed(b) && OddBracketed(rest)
    ensures OddBracketed(r)
  {
    assert r[2..] == rest;
  }

  /** A match runs from a `[` to a `]`. */
  lemma MatchIsBracketed(s: string)
    requires MatchStart(s) >= 0
    ensures Bracketed(s[MatchStart(s)..MatchEnd(s) + 1])
  {
    var p := s[MatchStart(s)..MatchEnd(s) + 1];
    assert p[..1] == "[";
    assert p[|p| - 1..] == "]";
  }

  /** `part.startsWith('[') && part.endsWith(']')`. */
  predicate Bracketed(part: string)
  {
    StartsWith(part, "[") && EndsWith(part, "]")
  }

  /** The parts the `forEach` turns into runs: placeholders, and non-blank plain text. */
  predicate Keeps(part: string)
  {
    Bracketed(part) || Trim(part) != ""
  }

  function ToRun(part: string): Run
  {
    Run(part, Bracketed(part))
  }

  /** The runs of a line. */
  function RunsOf(line: string): seq<Run>
  {
    MapSeq(Filter(Segments(line), Keeps), ToRun)
  }

  /** The `forEach` over the parts, pushing one run per kept part. */
  method BuildRuns(parts: seq<string>) returns (runs: seq<Run>)
    ensures runs == MapSeq(Filter(parts, Keeps), ToRun)
  {
    runs := [];
    for i := 0 to |parts|
      invariant runs == PushAllIf([], parts[..i], Keeps, ToRun)
    {
      PushAllIfStep([], parts, Keeps, ToRun, i);
      var part := parts[i];
      if StartsWith(part, "[") && EndsWith(part, "]") {
        runs := runs + [Run(part, true)];
      } else if Trim(part) != "" {
        runs := runs + [Run(part, false)];
      }
    }
    assert parts[..|parts|] == parts;
    PushAllIfIsAppend([], parts, Keeps, ToRun);
    assert [] + MapSeq(Filter(parts, Keeps), ToRun) == MapSeq(Filter(parts, Keeps), ToRun);
  }

  /** Every run is a placeholder, styled, or non-blank plain text, unstyled; and a non-blank
      line always yields at least one run, so the "no runs" guard never drops a line. */
  lemma RunsShape(line: string)
    ensures forall k :: 0 <= k < |RunsOf(line)| ==>
      (RunsOf(line)[k].styled <==> Bracketed(RunsOf(line)[k].text))
      && (Bracketed(RunsOf(line)[k].text) || Trim(RunsOf(line)[k].text) != "")
    ensures !IsBlank(line) ==> RunsOf(line) != []
  {
    if !IsBlank(line) {
      NonBlankHasRuns(line);
    }
  }

  /** A line that is not blank has a kept segment: the line itself when nothing matches, and
      the first placeholder otherwise. */
  lemma NonBlankHasRuns(line: string)
    requires !IsBlank(line)
    ensures RunsOf(line) != []
  {
    var parts := Segments(line);
    var kept := Filter(parts, Keeps);
    SegmentsPartition(line);
    SegmentsAlternate(line);
    if |parts| == 1 {
      FlattenSingle(parts);
      assert Keeps(parts[0]);
      assert parts[0] in kept;
    } else {
      assert Keeps(parts[1]);
      assert parts[1] in kept;
    }
  }

  lemma FlattenSingle(parts: seq<string>)
    requires |parts| == 1
    ensures Flatten(parts) == parts[0]
  {
    assert parts[1..] == [];
  }

  // ---------------------------------------------------------------------------------------
  // Line classification and the paragraph fold
  // ---------------------------------------------------------------------------------------

  /** The heading test: non-empty, equal to its upper-case form, shorter than 50 characters,
      without `[`. */
  predicate IsHeadingLine(line: string)
  {
    line != "" && Upper(line) == line && |line| < 50 && '[' !in line
  }

  /** `line.match(/^\d+\.\s/)`. */
  predicate IsNumberedLine(line: string)
  {
    var k := |LeadingDigits(line)|;
    k >= 1 && k + 1 < |line| && line[k] == '.' && IsSpace(line[k + 1])
  }

  datatype LineKind = BlankLine | HeadingLine | NumberedLine | PlaceholderLine | TextLine | SeparatorLine

  /** The branch a trimmed line takes, in the order the generator tries them. */
  function KindOf(line: string): LineKind
  {
    if IsHeadingLine(line) then HeadingLine
    else if IsNumberedLine(line) then NumberedLine
    else if line != "" && !StartsWith(line, "---") then
      (if '[' in line && ']' in line then PlaceholderLine else TextLine)
    else if StartsWith(line, "---") then SeparatorLine
    else BlankLine
  }

  /** The pending lines, joined by single spaces, become a body paragraph. */
  function Flush(st: State): (r: State)
    ensures r.pending == []
  {
    if st.pending == [] then st
    else State(st.children + [Body(Join(st.pending, " "))], [])
  }

  /** One iteration of the generator's loop over a raw line. */
  function Step(st: State, raw: string): State
  {
    var line := Trim(raw);
    match KindOf(line)
    case BlankLine => st
    case HeadingLine => State(Flush(st).children + [Heading(line)], [])
    case NumberedLine => State(Flush(st).children + [ListItem(line)], [])
    case PlaceholderLine =>
      var runs := RunsOf(line);
      State(st.children + (if runs != [] then [Placeholders(runs)] else []), st.pending)
    case TextLine => State(st.children, st.pending + [line])
    case SeparatorLine => Flush(st)
  }

  /** The loop over the lines, from an empty state. */
  function Fold(lines: seq<string>): State
  {
    if lines == [] then State([], [])
    else Step(Fold(lines[..|lines| - 1]), lines[|lines| - 1])
  }

  /** The paragraphs after the final flush. */
  function Finish(st: State): seq<Paragraph>
  {
    Flush(st).children
  }

  /** The paragraph descriptors of a template. */
  function Segment(templateText: string): seq<Paragraph>
  {
    Finish(Fold(Split(templateText, '\n')))
  }

  /** `if (currentSection.length > 0) { children.push(...); currentSection = [] }`. */
  method FlushPending(children: seq<Paragraph>, current: seq<string>)
    returns (children': seq<Paragraph>, current': seq<string>)
    ensures State(children', current') == Flush(State(children, current))
  {
    children', current' := children, current;
    if |current| > 0 {
      children' := children + [Body(Join(current, " "))];
      current' := [];
    }
  }

  /** The empty line takes no branch. */
  lemma EmptyLineKind()
    ensures KindOf("") == BlankLine
  {
    assert !IsNumberedLine("");
    assert !StartsWith("", "---");
  }

  /** The body of the generator's loop for one raw line. */
  method ProcessLine(children: seq<Paragraph>, current: seq<string>, raw: string)
    returns (children': seq<Paragraph>, current': seq<string>)
    ensures State(children', current') == Step(State(children, current), raw)
  {
    ghost var st := State(children, current);
    children', current' := children, current;
    var line := Trim(raw);
    if line == "" && |current| == 0 {
      EmptyLineKind();
      assert Step(st, raw) == st;
    } else if IsHeadingLine(line) {
      assert KindOf(line) == HeadingLine;
      children', current' := FlushPending(children, current);
      children' := children' + [Heading(line)];
      assert Step(st, raw) == State(Flush(st).children + [Heading(line)], []);
    } else if IsNumberedLine(line) {
      assert KindOf(line) == NumberedLine;
      children', current' := FlushPending(children, current);
      children' := children' + [ListItem(line)];
      assert Step(st, raw) == State(Flush(st).children + [ListItem(line)], []);
    } else if line != "" && !StartsWith(line, "---") {
      if '[' in line && ']' in line {
        assert KindOf(line) == PlaceholderLine;
        var runs := BuildRuns(Segments(line));
        if |runs| > 0 {
          children' := children + [Placeholders(runs)];
        }
        assert Step(st, raw) == State(children + (if runs != [] then [Placeholders(runs)] else []), current);
      } else {
        assert KindOf(line) == TextLine;
        current' := current + [line];
        assert Step(st, raw) == State(children, current + [line]);
      }
    } else if StartsWith(line, "---") {
      assert KindOf(line) == SeparatorLine;
      children', current' := FlushPending(children, current);
      assert Step(st, raw) == Flush(st);
    } else {
      EmptyLineKind();
      assert Step(st, raw) == st;
    }
  }

  /** The loop of `generateQualityPolicyDocx`, up to the document construction. */
  method GenerateParagraphs(templateText: string) returns (children: seq<Paragraph>)
    ensures children == Segment(templateText)
  {
    var lines := Split(templateText, '\n');
    children := [];
    var current: seq<string> := [];
    for i := 0 to |lines|
      invariant State(children, current) == Fold(lines[..i])
    {
      FoldSnoc(lines, i);
      children, current := ProcessLine(children, current, lines[i]);
    }
    assert lines[..|lines|] == lines;
    children, current := FlushPending(children, current);
  }

  /** One more line read: the fold of the first `i + 1` lines steps the fold of the first `i`. */
  lemma FoldSnoc(lines: seq<string>, i: nat)
    requires i < |lines|
    ensures Fold(lines[..i + 1]) == Step(Fold(lines[..i]), lines[i])
  {
    assert lines[..i + 1][..i] == lines[..i];
  }

  // ---------------------------------------------------------------------------------------
  // Properties of the fold
  // ---------------------------------------------------------------------------------------

  /** A line that is blank after trimming changes nothing: it neither produces a paragraph
      nor ends the pending one. */
  lemma BlankLineInert(st: State, raw: string)
    requires IsBlank(raw)
    ensures Step(st, raw) == st
  {
  }

  /** The paragraphs a line produces by itself. */
  function Own(line: string): seq<Paragraph>
  {
    match KindOf(line)
    case HeadingLine => [Heading(line)]
    case NumberedLine => [ListItem(line)]
    case PlaceholderLine => if RunsOf(line) != [] then [Placeholders(RunsOf(line))] else []
    case _ => []
  }

  /** A heading, a numbered item or a separator closes the pending text first: the paragraphs
      so far are followed by the line's own paragraphs, and nothing is left pending. A plain
      line joins the pending text. */
  lemma BreaksFlush(st: State, raw: string)
    ensures KindOf(Trim(raw)) in {HeadingLine, NumberedLine, SeparatorLine} ==>
      Step(st, raw).pending == [] && Finish(Step(st, raw)) == Finish(st) + Own(Trim(raw))
    ensures KindOf(Trim(raw)) == TextLine ==>
      Step(st, raw) == State(st.children, st.pending + [Trim(raw)])
  {
    var line := Trim(raw);
    if KindOf(line) == SeparatorLine {
      assert Finish(st) + [] == Finish(st);
    }
  }

  /** A placeholder line is emitted without closing the pending text, which stays pending and
      is emitted later, after the placeholder paragraph. */
  lemma PlaceholderOvertakesPending(st: State, raw: string)
    requires KindOf(Trim(raw)) == PlaceholderLine && st.pending != []
    ensures Finish(Step(st, raw))
         == st.children + [Placeholders(RunsOf(Trim(raw)))] + [Body(Join(st.pending, " "))]
    ensures Finish(Step(st, raw)) != Finish(st) + Own(Trim(raw))
  {
    var line := Trim(raw);
    var runs := RunsOf(line);
    var body := Body(Join(st.pending, " "));
    assert runs != [] by {
      assert !IsSpace(line[0]);
      RunsShape(line);
    }
    assert Step(st, raw) == State(st.children + [Placeholders(runs)], st.pending);
    var a := st.children + [Placeholders(runs)] + [body];
    assert Finish(Step(st, raw)) == a;
    var b := st.children + [body] + [Placeholders(runs)];
    assert Finish(st) + Own(line) == b;
    SwapDiffers(st.children, Placeholders(runs), body);
  }

  lemma SwapDiffers<T>(c: seq<T>, x: T, y: T)
    requires x != y
    ensures c + [x] + [y] != c + [y] + [x]
  {
    assert (c + [x] + [y])[|c|] == x;
  }

  /** The heading test lets in lines with no lower-case letter at all: `---` is a heading,
      not a separator. */
  lemma DashesAreHeading()
    ensures KindOf("---") == HeadingLine
  {
    UpperFixpoint("---");
  }

  /** A numbered line without lower-case letters, shorter than 50 characters and without `[`
      is a heading, not a list item: the heading test comes first. */
  lemma CapitalisedNumberedIsHeading(line: string)
    requires IsNumberedLine(line) && |line| < 50 && '[' !in line
    requires forall i :: 0 <= i < |line| ==> !IsLowerLetter(line[i])
    ensures KindOf(line) == HeadingLine
  {
    UpperFixpoint(line);
  }

  lemma SignedIsTrimmed()
    ensures Trim("Signed: x") == "Signed: x"
  {
    TrimStartKeeps("Signed: x", "");
    assert "Signed: x" + "" == "Signed: x";
  }

  lemma SignedIsNotHeading()
    ensures !IsHeadingLine("Signed: x")
  {
    UpperFixpoint("Signed: x");
    assert IsLowerLetter("Signed: x"[1]);
  }

  lemma SignedIsNotNumbered()
    ensures !IsNumberedLine("Signed: x")
  {
    assert LeadingDigits("Signed: x") == [];
  }

  lemma SignedIsText()
    ensures Trim("Signed: x") == "Signed: x"
    ensures KindOf("Signed: x") == TextLine
  {
    SignedIsTrimmed();
    SignedIsNotHeading();
    SignedIsNotNumbered();
    FirstCharDiffers("Signed: x", "---");
    assert '[' !in "Signed: x";
  }

  lemma NameIsPlaceholder()
    ensures Trim("[Name]") == "[Name]"
    ensures KindOf("[Name]") == PlaceholderLine
  {
    TrimStartKeeps("[Name]", "");
    assert "[Name]" + "" == "[Name]";
    assert "[Name]"[0] == '[';
    assert "[Name]"[5] == ']';
    assert LeadingDigits("[Name]") == [];
    FirstCharDiffers("[Name]", "---");
  }

  lemma FoldPair(a: string, b: string)
    ensures Fold([a]) == Step(State([], []), a)
    ensures Fold([a, b]) == Step(Fold([a]), b)
  {
    assert [a][..0] == [];
    assert [a, b][..1] == [a];
  }

  lemma TextStep(st: State, raw: string)
    requires KindOf(Trim(raw)) == TextLine
    ensures Step(st, raw) == State(st.children, st.pending + [Trim(raw)])
  {
  }

  /** A plain line followed by a placeholder line, as at the template's signature block, comes
      out placeholder first: the two paragraphs are swapped. */
  lemma SignatureBlock(signed: string, name: string)
    requires KindOf(Trim(signed)) == TextLine && KindOf(Trim(name)) == PlaceholderLine
    ensures Finish(Fold([signed, name]))
         == [] + [Placeholders(RunsOf(Trim(name)))] + [Body(Join([Trim(signed)], " "))]
  {
    var first := Fold([signed]);
    FoldPair(signed, name);
    TextStep(State([], []), signed);
    assert [] + [Trim(signed)] == [Trim(signed)];
    PlaceholderOvertakesPending(first, name);
  }

  /** The same with concrete lines: `Signed: x` then `[Name]`. */
  lemma SignatureBlockExample()
    ensures Finish(Fold(["Signed: x", "[Name]"]))
         == [] + [Placeholders(RunsOf("[Name]"))] + [Body(Join(["Signed: x"], " "))]
  {
    SignedIsText();
    NameIsPlaceholder();
    SignatureBlock("Signed: x", "[Name]");
  }

  // ---------------------------------------------------------------------------------------
  // The order-preserving segmenter
  // ---------------------------------------------------------------------------------------

  /** The step with the pending text closed before a placeholder line, as for every other
      line that produces a paragraph of its own. */
  function StepInOrder(st: State, raw: string): State
  {
    var line := Trim(raw);
    match KindOf(line)
    case PlaceholderLine => State(Flush(st).children + Own(line), [])
    case _ => Step(st, raw)
  }

  /** With the corrected step every line that is not plain text appends its own paragraphs
      after everything read before it, and a plain line joins the pending text: the output
      follows the order of the input lines. */
  lemma InOrderAppends(st: State, raw: string)
    ensures KindOf(Trim(raw)) != TextLine ==>
      Finish(StepInOrder(st, raw)) == Finish(st) + Own(Trim(raw))
    ensures KindOf(Trim(raw)) == TextLine ==>
      StepInOrder(st, raw) == State(st.children, st.pending + [Trim(raw)])
  {
    var k := KindOf(Trim(raw));
    if k == PlaceholderLine {
      InOrderPlaceholder(st, raw);
    } else {
      InOrderAsStep(st, raw);
      BreaksFlush(st, raw);
      if k == BlankLine {
        InOrderBlank(st, raw);
      }
    }
  }

  /** The corrected step differs from the loop's only on placeholder lines. */
  lemma InOrderAsStep(st: State, raw: string)
    requires KindOf(Trim(raw)) != PlaceholderLine
    ensures StepInOrder(st, raw) == Step(st, raw)
  {
  }

  /** The corrected step flushes before it appends a placeholder line's paragraph. */
  lemma InOrderPlaceholder(st: State, raw: string)
    requires KindOf(Trim(raw)) == PlaceholderLine
    ensures Finish(StepInOrder(st, raw)) == Finish(st) + Own(Trim(raw))
  {
  }

  /** A blank line adds nothing, to the state or to the document. */
  lemma InOrderBlank(st: State, raw: string)
    requires KindOf(Trim(raw)) == BlankLine
    ensures Finish(Step(st, raw)) == Finish(st) + Own(Trim(raw))
  {
    assert Finish(st) + [] == Finish(st);
  }

  /** The corrected segmenter: the same fold with the order-preserving step. */
  function FoldInOrder(lines: seq<string>): State
  {
    if lines == [] then State([], [])
    else StepInOrder(FoldInOrder(lines[..|lines| - 1]), lines[|lines| - 1])
  }

  lemma FoldInOrderPair(a: string, b: string)
    ensures FoldInOrder([a]) == StepInOrder(State([], []), a)
    ensures FoldInOrder([a, b]) == StepInOrder(FoldInOrder([a]), b)
  {
    assert [a][..0] == [];
    assert [a, b][..1] == [a];
  }

  /** With the corrected step a plain line followed by a placeholder line keeps its order:
      the plain line's paragraph comes first. */
  lemma SignatureBlockInOrder(signed: string, name: string)
    requires KindOf(Trim(signed)) == TextLine && KindOf(Trim(name)) == PlaceholderLine
    ensures Finish(FoldInOrder([signed, name]))
         == [] + [Body(Join([Trim(signed)], " "))] + Own(Trim(name))
  {
    var first := FoldInOrder([signed]);
    FoldInOrderPair(signed, name);
    InOrderAppends(State([], []), signed);
    assert [] + [Trim(signed)] == [Trim(signed)];
    InOrderAppends(first, name);
  }

  /** The same with concrete lines: `Signed: x` then `[Name]` now come out in that order. */
  lemma SignatureBlockInOrderExample()
    ensures Finish(FoldInOrder(["Signed: x", "[Name]"]))
         == [] + [Body(Join(["Signed: x"], " "))] + Own("[Name]")
  {
    SignedIsText();
    NameIsPlaceholder();
    SignatureBlockInOrder("Signed: x", "[Name]");
  }
}
