/**
 The rewrite that prepares an article for blog publishing: four substitutions run
 in a fixed order over the whole text of the file. An alert box's opening tag (with
 an optional bold label) becomes a bare `>`, every closing `</div>` tag with the
 newline after it is deleted, and the markers `###` and `####`, each with the
 whitespace after it, are each replaced by a marker one `#` shorter.
 */
module Sanitize {
  import opened CharClasses
  import opened Regex
  import opened ReSub

  /** The optional label: `<strong>`, a word, `:</strong>` and one whitespace character. */
  const Label: seq<Atom> := [Lit("<strong>"), Plus(Word), Lit(":</strong>"), One(Space)]

  /**
   The opening tag of an alert box up to the optional label: `<div`, whitespace,
   `class='aler` with one or more `t`, a whitespace run, a word, `-`, a word, `'`,
   whitespace, `role='alert'>`, a newline and a whitespace run.
   */
  const AlertTag: seq<Atom> :=
    [Lit("<div"), One(Space), Lit("class='aler"), Plus(Is('t')), Plus(Space), Plus(Word),
     Lit("-"), Plus(Word), Lit("'"), One(Space), Lit("role='alert'>\n"), Plus(Space)]

  /** The pattern of line 25: the opening tag and then, if present, the label. */
  const AlertOpening: seq<Atom> := AlertTag + [Opt(Label)]

  const ClosingDiv: seq<Atom> := [Lit("</div>\n")]

  /** `###` and a whitespace run; nothing ties it to the start of a line. */
  const Heading3: seq<Atom> := [Lit("###"), Plus(Space)]

  const Heading4: seq<Atom> := [Lit("####"), Plus(Space)]

  /** Line 25: alert opening tags become `>`. */
  function AlertToQuote(k: Classes, s: string): string {
    Sub(k, AlertOpening, ">", s)
  }

  /** Line 26: closing tags followed by a newline are deleted. */
  function DropClosingDiv(k: Classes, s: string): string {
    Sub(k, ClosingDiv, "", s)
  }

  /** Line 28: `###` and the whitespace after it become `## `. */
  function UpscaleLevel3(k: Classes, s: string): string {
    Sub(k, Heading3, "## ", s)
  }

  /** Line 29: `####` and the whitespace after it become `### `. */
  function UpscaleLevel4(k: Classes, s: string): string {
    Sub(k, Heading4, "### ", s)
  }

  /** The text written back to the file, given the text read from it. */
  function SanitizeText(k: Classes, s: string): string {
    UpscaleLevel4(k, UpscaleLevel3(k, DropClosingDiv(k, AlertToQuote(k, s))))
  }

  lemma LabelIsDeterministic(k: Classes)
    requires Sound(k)
    ensures Deterministic(k, Label)
  {
    forall m | 0 <= m < |Label| ensures SteadyAt(k, Label, m) {
      if m == 1 {
        assert Label[2..][0] == Lit(":</strong>") && !k.isWord(':');
      }
    }
    DeterministicWhenSteady(k, Label);
  }

  lemma AlertOpeningIsDeterministic(k: Classes)
    requires Sound(k)
    ensures Deterministic(k, AlertOpening)
  {
    var p := AlertOpening;
    LabelIsDeterministic(k);
    forall m | 0 <= m < |p| ensures SteadyAt(k, p, m) {
      if m == 3 {
        assert p[4..][0] == Plus(Space) && Disjoint(k, Is('t'), Space);
      } else if m == 4 {
        assert p[5..][0] == Plus(Word) && Disjoint(k, Space, Word);
      } else if m == 5 {
        assert p[6..][0] == Lit("-") && !k.isWord('-');
      } else if m == 7 {
        assert p[8..][0] == Lit("'") && !k.isWord('\'');
      } else if m == 11 {
        assert p[12..] == [Opt(Label)];
      } else if m == 12 {
        assert p[12] == Opt(Label);
      } else {
        assert p[m].Lit? || p[m].One? by {
          assert m in {0, 1, 2, 6, 8, 9, 10};
        }
      }
    }
    DeterministicWhenSteady(k, p);
  }

  /** No run in the four patterns can give characters back to what follows it. */
  lemma PatternsAreDeterministic(k: Classes)
    requires Sound(k)
    ensures Deterministic(k, AlertOpening) && Deterministic(k, ClosingDiv)
    ensures Deterministic(k, Heading3) && Deterministic(k, Heading4)
  {
    AlertOpeningIsDeterministic(k);
    assert Deterministic(k, Heading3[1..]);
    assert Deterministic(k, Heading4[1..]);
  }

  /** The four scanners compute exactly what the four `re.sub` calls compute. */
  lemma SanitizeIsReSubChain(k: Classes, s: string)
    requires Sound(k)
    ensures SanitizeText(k, s) ==
      PySub(k, Heading4, "### ", PySub(k, Heading3, "## ", PySub(k, ClosingDiv, "", PySub(k, AlertOpening, ">", s))))
  {
    PatternsAreDeterministic(k);
    var s1 := AlertToQuote(k, s);
    var s2 := DropClosingDiv(k, s1);
    var s3 := UpscaleLevel3(k, s2);
    ScannerIsPythonSub(k, AlertOpening, ">", s, 0);
    ScannerIsPythonSub(k, ClosingDiv, "", s1, 0);
    ScannerIsPythonSub(k, Heading3, "## ", s2, 0);
    ScannerIsPythonSub(k, Heading4, "### ", s3, 0);
  }

  // ---------------------------------------------------------------------------
  // Line 25: alert boxes

  /** The pieces of an opening tag, one per atom of `AlertTag`. */
  function TagPieces(c1: char, ts: string, sep: string, style: string, variant: string,
                     c2: char, indent: string): seq<string>
  {
    ["<div", [c1], "class='aler", ts, sep, style, "-", variant, "'", [c2], "role='alert'>\n", indent]
  }

  /** An opening tag up to and including the whitespace run before the label, then `rest`. */
  function AlertText(c1: char, ts: string, sep: string, style: string, variant: string,
                     c2: char, indent: string, rest: string): string
  {
    Concat(TagPieces(c1, ts, sep, style, variant, c2, indent)) + rest
  }

  /** The pieces of an opening tag belong to the classes the pattern demands. */
  predicate AlertShape(k: Classes, c1: char, ts: string, sep: string, style: string,
                       variant: string, c2: char, indent: string)
  {
    && k.isSpace(c1) && IsRun(k, Is('t'), ts) && IsRun(k, Space, sep)
    && IsRun(k, Word, style) && IsRun(k, Word, variant) && k.isSpace(c2) && IsRun(k, Space, indent)
  }

  function LabelPieces(name: string, c3: char): seq<string> {
    ["<strong>", name, ":</strong>", [c3]]
  }

  /** The bold label followed by `tail`. */
  function LabelText(name: string, c3: char, tail: string): string {
    Concat(LabelPieces(name, c3)) + tail
  }

  /**
   Each piece of a well-shaped tag is what its atom takes whole: no run of the tag
   runs on into the piece after it.
   */
  lemma TagFits(k: Classes, c1: char, ts: string, sep: string, style: string, variant: string,
                c2: char, indent: string, rest: string)
    requires Sound(k) && AlertShape(k, c1, ts, sep, style, variant, c2, indent)
    requires rest == [] || !k.isSpace(rest[0])
    ensures Fits(k, AlertTag, TagPieces(c1, ts, sep, style, variant, c2, indent), rest)
  {
    var ws := TagPieces(c1, ts, sep, style, variant, c2, indent);
    assert AsciiWord('t') && PatternPunctuation('-') && PatternPunctuation('\'');
    forall m | 0 <= m < |AlertTag| ensures FitsHead(k, AlertTag[m], ws[m], NextPiece(ws, rest, m)) {
    }
  }

  lemma LabelFits(k: Classes, name: string, c3: char, tail: string)
    requires Sound(k) && IsRun(k, Word, name) && k.isSpace(c3)
    ensures Fits(k, Label, LabelPieces(name, c3), tail)
  {
    var ws := LabelPieces(name, c3);
    assert PatternPunctuation(':');
    forall m | 0 <= m < |Label| ensures FitsHead(k, Label[m], ws[m], NextPiece(ws, tail, m)) {
    }
  }

  /** The scanner takes a well-shaped tag whole and then tries the label right after it. */
  lemma AlertTagMatches(k: Classes, c1: char, ts: string, sep: string, style: string, variant: string,
                        c2: char, indent: string, rest: string)
    requires Sound(k) && AlertShape(k, c1, ts, sep, style, variant, c2, indent)
    requires rest == [] || !k.isSpace(rest[0])
    ensures var s := AlertText(c1, ts, sep, style, variant, c2, indent, rest);
      var e := |Concat(TagPieces(c1, ts, sep, style, variant, c2, indent))|;
      e <= |s| && s[e..] == rest && Greedy(k, AlertOpening, s, 0) == Greedy(k, [Opt(Label)], s, e)
  {
    var s := AlertText(c1, ts, sep, style, variant, c2, indent, rest);
    TagFits(k, c1, ts, sep, style, variant, c2, indent, rest);
    assert s[0..] == s;
    GreedyOverPieces(k, AlertTag, [Opt(Label)], TagPieces(c1, ts, sep, style, variant, c2, indent), rest, s, 0);
  }

  /** A bold label at `e` is taken whole by the optional group. */
  lemma LabelTaken(k: Classes, s: string, e: nat, name: string, c3: char, tail: string)
    requires Sound(k) && IsRun(k, Word, name) && k.isSpace(c3)
    requires e <= |s| && s[e..] == LabelText(name, c3, tail)
    ensures var d := |Concat(LabelPieces(name, c3))|;
      e + d <= |s| && s[e + d..] == tail && Greedy(k, [Opt(Label)], s, e) == Some(e + d)
  {
    LabelFits(k, name, c3, tail);
    GreedyOverPieces(k, Label, [], LabelPieces(name, c3), tail, s, e);
    assert Label + [] == Label;
    GreedyLastGroup(k, Label, s, e);
  }

  /** A match of line 25's pattern at the start of the text becomes `>`. */
  lemma QuoteAtStart(k: Classes, s: string, e: nat, tail: string)
    requires e <= |s| && s[e..] == tail && Greedy(k, AlertOpening, s, 0) == Some(e)
    ensures AlertToQuote(k, s) == ">" + AlertToQuote(k, tail)
  {
    SubFromMatch(k, AlertOpening, ">", s, 0, e);
  }

  lemma LabelTextHead(k: Classes, name: string, c3: char, tail: string)
    requires Sound(k)
    ensures var t := LabelText(name, c3, tail); t != [] && !k.isSpace(t[0])
  {
    ConcatHead(LabelPieces(name, c3), tail);
    assert PatternPunctuation('<');
  }

  /** With a label, the tag, the whitespace run and the label all become one `>`. */
  lemma AlertWithLabelBecomesQuote(k: Classes, c1: char, ts: string, sep: string, style: string,
                                   variant: string, c2: char, indent: string,
                                   name: string, c3: char, tail: string)
    requires Sound(k) && AlertShape(k, c1, ts, sep, style, variant, c2, indent)
    requires IsRun(k, Word, name) && k.isSpace(c3)
    ensures AlertToQuote(k, AlertText(c1, ts, sep, style, variant, c2, indent, LabelText(name, c3, tail)))
         == ">" + AlertToQuote(k, tail)
  {
    var rest := LabelText(name, c3, tail);
    var s := AlertText(c1, ts, sep, style, variant, c2, indent, rest);
    var e := |Concat(TagPieces(c1, ts, sep, style, variant, c2, indent))|;
    var d := |Concat(LabelPieces(name, c3))|;
    LabelTextHead(k, name, c3, tail);
    AlertTagMatches(k, c1, ts, sep, style, variant, c2, indent, rest);
    LabelTaken(k, s, e, name, c3, tail);
    QuoteAtStart(k, s, e + d, tail);
  }

  /** Without a label, the tag and the whitespace run become `>` and the text is kept. */
  lemma AlertWithoutLabelBecomesQuote(k: Classes, c1: char, ts: string, sep: string, style: string,
                                      variant: string, c2: char, indent: string, tail: string)
    requires Sound(k) && AlertShape(k, c1, ts, sep, style, variant, c2, indent)
    requires tail == [] || (!k.isSpace(tail[0]) && !LitAt(tail, 0, "<strong>"))
    ensures AlertToQuote(k, AlertText(c1, ts, sep, style, variant, c2, indent, tail))
         == ">" + AlertToQuote(k, tail)
  {
    var s := AlertText(c1, ts, sep, style, variant, c2, indent, tail);
    var e := |Concat(TagPieces(c1, ts, sep, style, variant, c2, indent))|;
    AlertTagMatches(k, c1, ts, sep, style, variant, c2, indent, tail);
    assert Greedy(k, Label, s, e).None?;
    GreedyLastGroup(k, Label, s, e);
    QuoteAtStart(k, s, e, tail);
  }

  /** Text with no `<div` is left as it is by line 25. */
  lemma AlertToQuoteKeepsOtherText(k: Classes, s: string)
    requires !Occurs("<div", s)
    ensures AlertToQuote(k, s) == s
  {
    SubWithoutText(k, AlertOpening, ">", s);
  }

  // ---------------------------------------------------------------------------
  // Line 26: closing tags

  const CloseTag := "</div>\n"

  /** Number of positions at or after `i` where a closing tag and newline start. */
  function CountClosing(s: string, i: nat): nat
    requires i <= |s|
    decreases |s| - i
  {
    if i == |s| then 0 else (if LitAt(s, i, CloseTag) then 1 else 0) + CountClosing(s, i + 1)
  }

  /** Two occurrences of the closing tag never overlap. */
  lemma ClosingTagsDoNotOverlap(s: string, i: nat, d: nat)
    requires LitAt(s, i, CloseTag) && 0 < d < |CloseTag|
    ensures !LitAt(s, i + d, CloseTag)
  {
    assert CloseTag == "<" + "/div>\n";
    assert s[i..i + 7][d] == s[i + d] == "/div>\n"[d - 1];
    assert "/div>\n"[d - 1] in "/div>\n";
    if i + d + 7 <= |s| {
      assert s[i + d..i + d + 7][0] == s[i + d];
    }
  }

  lemma {:induction false} CountClosingSkips(s: string, i: nat, m: nat)
    requires i <= m <= |s|
    requires forall j :: i <= j < m ==> !LitAt(s, j, CloseTag)
    ensures CountClosing(s, i) == CountClosing(s, m)
    decreases m - i
  {
    if i < m {
      CountClosingSkips(s, i + 1, m);
    }
  }

  lemma {:induction false} DropClosingDivLengthFrom(k: Classes, s: string, i: nat)
    requires i <= |s|
    ensures |SubFrom(k, ClosingDiv, "", s, i)| == |s| - i - 7 * CountClosing(s, i)
    decreases |s| - i
  {
    if i < |s| {
      if LitAt(s, i, CloseTag) {
        assert Greedy(k, ClosingDiv, s, i) == Some(i + 7);
        forall j | i + 1 <= j < i + 7 ensures !LitAt(s, j, CloseTag) {
          ClosingTagsDoNotOverlap(s, i, j - i);
        }
        CountClosingSkips(s, i + 1, i + 7);
        DropClosingDivLengthFrom(k, s, i + 7);
      } else {
        assert Greedy(k, ClosingDiv, s, i).None?;
        DropClosingDivLengthFrom(k, s, i + 1);
      }
    }
  }

  /** Line 26 removes every closing tag with its newline: seven characters per occurrence. */
  lemma DropClosingDivLength(k: Classes, s: string)
    ensures |DropClosingDiv(k, s)| == |s| - 7 * CountClosing(s, 0)
  {
    DropClosingDivLengthFrom(k, s, 0);
  }

  /** No closing tag starts fewer than seven characters before another one. */
  lemma TagNotJustBefore(s: string, i: nat, d: nat)
    requires 0 < d < |CloseTag| && LitAt(s, i + d, CloseTag)
    ensures !LitAt(s, i, CloseTag)
  {
    assert s[i + d..i + d + 7][0] == s[i + d];
    assert CloseTag[1..][d - 1] == CloseTag[d];
    assert '<' !in CloseTag[1..];
    if i + 7 <= |s| {
      assert s[i..i + 7][d] == s[i + d];
    }
  }

  /** Before the first closing tag of `x + CloseTag + y` no closing tag starts. */
  lemma NoTagBeforeFirst(x: string, y: string, j: nat)
    requires !Occurs(CloseTag, x) && j < |x|
    ensures !LitAt(x + CloseTag + y, j, CloseTag)
  {
    var s := x + CloseTag + y;
    var n := |x|;
    if j + 7 <= n {
      assert s[j..j + 7] == x[j..j + 7];
      assert !LitAt(x, j, CloseTag);
    } else {
      assert s[n..n + 7] == CloseTag;
      TagNotJustBefore(s, j, n - j);
    }
  }

  /**
   Line 26 deletes the first closing tag and newline and keeps everything before it
   in order.
   */
  lemma DropClosingDivRemovesTag(k: Classes, x: string, y: string)
    requires !Occurs(CloseTag, x)
    ensures DropClosingDiv(k, x + CloseTag + y) == x + DropClosingDiv(k, y)
  {
    var s := x + CloseTag + y;
    var n := |x|;
    forall j | 0 <= j < n ensures Greedy(k, ClosingDiv, s, j).None? {
      NoTagBeforeFirst(x, y, j);
    }
    SubFromCopies(k, ClosingDiv, "", s, 0, n);
    assert s[0..n] == x && s[n..n + 7] == CloseTag && s[n + 7..] == y;
    SubFromMatch(k, ClosingDiv, "", s, n, n + 7);
  }

  /** Text with no closing tag and newline is left as it is by line 26. */
  lemma DropClosingDivKeepsOtherText(k: Classes, s: string)
    requires !Occurs(CloseTag, s)
    ensures DropClosingDiv(k, s) == s
  {
    SubWithoutText(k, ClosingDiv, "", s);
  }

  // ---------------------------------------------------------------------------
  // Lines 28 and 29: headings

  /** A heading pattern matches its marker and the whole whitespace run after it. */
  lemma MarkerMatches(k: Classes, p: seq<Atom>, marker: string, ws: string, rest: string)
    requires p == [Lit(marker), Plus(Space)] && |marker| > 0
    requires IsRun(k, Space, ws) && (rest == [] || !k.isSpace(rest[0]))
    ensures Greedy(k, p, marker + (ws + rest), 0) == Some(|marker| + |ws|)
    ensures (marker + (ws + rest))[|marker| + |ws|..] == rest
  {
    var s := marker + (ws + rest);
    assert s[0..] == marker + (ws + rest);
    GreedyStep(k, p, marker, ws + rest, s, 0);
    GreedyStep(k, p[1..], ws, rest, s, |marker|);
    assert p[1..][1..] == [];
  }

  /** `###` with a whitespace run becomes `## `: the run collapses to one space. */
  lemma Level3HeadingUpscaled(k: Classes, ws: string, rest: string)
    requires IsRun(k, Space, ws) && (rest == [] || !k.isSpace(rest[0]))
    ensures UpscaleLevel3(k, "###" + (ws + rest)) == "## " + UpscaleLevel3(k, rest)
  {
    var s := "###" + (ws + rest);
    MarkerMatches(k, Heading3, "###", ws, rest);
    SubFromMatch(k, Heading3, "## ", s, 0, 3 + |ws|);
  }

  /** `####` with a whitespace run becomes `### ` under line 29. */
  lemma Level4MarkerRewritten(k: Classes, ws: string, rest: string)
    requires IsRun(k, Space, ws) && (rest == [] || !k.isSpace(rest[0]))
    ensures UpscaleLevel4(k, "####" + (ws + rest)) == "### " + UpscaleLevel4(k, rest)
  {
    var s := "####" + (ws + rest);
    MarkerMatches(k, Heading4, "####", ws, rest);
    SubFromMatch(k, Heading4, "### ", s, 0, 4 + |ws|);
  }

  /**
   Line 28 does not match `####` at its first `#` (a `#` is not whitespace) but one
   character later, so a level-4 marker already leaves line 28 as `### `.
   */
  lemma Level4HeadingAfterLine28(k: Classes, ws: string, rest: string)
    requires Sound(k) && IsRun(k, Space, ws) && (rest == [] || !k.isSpace(rest[0]))
    ensures UpscaleLevel3(k, "####" + (ws + rest)) == "### " + UpscaleLevel3(k, rest)
  {
    var t := "###" + (ws + rest);
    var s := "#" + t;
    assert s == "####" + (ws + rest);
    assert LitAt(s, 0, "###") && s[3] == '#' && !k.isSpace('#');
    assert Greedy(k, Heading3, s, 0).None?;
    SubSkipsPrefix(k, Heading3, "## ", "#", t);
    Level3HeadingUpscaled(k, ws, rest);
  }

  /** `### ` is never touched by line 29: it holds no `####`. */
  lemma Level3MarkerSurvivesLine29(k: Classes, x: string)
    ensures UpscaleLevel4(k, "###" + [' '] + x) == "###" + [' '] + UpscaleLevel4(k, x)
  {
    SubSkipsShortPrefix(k, Heading4, "### ", "###", ' ', x);
  }

  /** After lines 28 and 29 a level-4 heading is a level-3 heading, whatever follows. */
  lemma Level4HeadingUpscaled(k: Classes, ws: string, rest: string)
    requires Sound(k) && IsRun(k, Space, ws) && (rest == [] || !k.isSpace(rest[0]))
    ensures UpscaleLevel4(k, UpscaleLevel3(k, "####" + (ws + rest)))
         == "### " + UpscaleLevel4(k, UpscaleLevel3(k, rest))
  {
    Level4HeadingAfterLine28(k, ws, rest);
    assert "### " + UpscaleLevel3(k, rest) == "###" + [' '] + UpscaleLevel3(k, rest);
    Level3MarkerSurvivesLine29(k, UpscaleLevel3(k, rest));
  }

  /** Line 28 leaves a text that does not start with whitespace not starting with whitespace. */
  lemma Line28KeepsHead(k: Classes, s: string)
    requires Sound(k) && (s == [] || !k.isSpace(s[0]))
    ensures var t := UpscaleLevel3(k, s); t == [] || !k.isSpace(t[0])
  {
    if s != [] {
      match Greedy(k, Heading3, s, 0)
      case Some(e) =>
        SubFromMatch(k, Heading3, "## ", s, 0, e);
        assert PatternPunctuation('#');
      case None =>
        SubFromCopies(k, Heading3, "## ", s, 0, 1);
    }
  }

  /**
   A marker of five `#` loses two levels: line 28 matches at its third `#` and turns
   it into `####`, which line 29 then turns into `###`.
   */
  lemma Level5HeadingUpscaled(k: Classes, ws: string, rest: string)
    requires Sound(k) && IsRun(k, Space, ws) && (rest == [] || !k.isSpace(rest[0]))
    ensures UpscaleLevel4(k, UpscaleLevel3(k, "#####" + (ws + rest)))
         == "### " + UpscaleLevel4(k, UpscaleLevel3(k, rest))
  {
    var t := "###" + (ws + rest);
    var s := "##" + t;
    assert s == "#####" + (ws + rest);
    assert !k.isSpace('#') && LitAt(s, 0, "###") && LitAt(s, 1, "###") && s[3] == s[4] == '#';
    forall j | 0 <= j < 2 ensures Greedy(k, Heading3, s, j).None? {
      assert Run(k, Space, s, j + 3) == 0;
    }
    SubSkipsPrefix(k, Heading3, "## ", "##", t);
    Level3HeadingUpscaled(k, ws, rest);
    var u := UpscaleLevel3(k, rest);
    assert "##" + ("## " + u) == "####" + ([' '] + u);
    Line28KeepsHead(k, rest);
    assert IsRun(k, Space, [' ']) by { assert AsciiSpace(' '); }
    Level4MarkerRewritten(k, [' '], u);
  }

  /** Fewer than three characters and then something other than `#` start no marker. */
  lemma ShortPrefixKept(k: Classes, a: string, c: char, b: string)
    requires |a| < 3 && c != '#'
    ensures UpscaleLevel3(k, a + [c] + b) == a + [c] + UpscaleLevel3(k, b)
    ensures UpscaleLevel4(k, a + [c] + b) == a + [c] + UpscaleLevel4(k, b)
  {
    SubSkipsShortPrefix(k, Heading3, "## ", a, c, b);
    SubSkipsShortPrefix(k, Heading4, "### ", a, c, b);
  }

  /** `###` followed by neither whitespace nor `#` is left alone by lines 28 and 29. */
  lemma Level3WithoutWhitespaceKept(k: Classes, x: string)
    requires x != [] && x[0] != '#' && !k.isSpace(x[0])
    ensures UpscaleLevel3(k, "###" + x) == "###" + UpscaleLevel3(k, x)
    ensures UpscaleLevel4(k, "###" + x) == "###" + UpscaleLevel4(k, x)
  {
    var s := "###" + x;
    assert s[3] == x[0];
    forall j | 0 <= j < 3 ensures Greedy(k, Heading3, s, j).None? && Greedy(k, Heading4, s, j).None? {
      if j == 0 {
        assert Run(k, Space, s, 3) == 0;
      }
      if j + 3 <= |s| {
        assert s[j..j + 3][3 - j - 1] == s[2];
      }
      if j > 0 && j + 3 <= |s| {
        assert s[j..j + 3][3 - j] == s[3];
      }
      if j + 4 <= |s| {
        assert s[j..j + 4][3 - j] == s[3];
      }
    }
    SubSkipsPrefix(k, Heading3, "## ", "###", x);
    SubSkipsPrefix(k, Heading4, "### ", "###", x);
  }

  // ---------------------------------------------------------------------------
  // The whole chain

  lemma Level4TextContainsLevel3Text(s: string)
    requires Occurs("####", s)
    ensures Occurs("###", s)
  {
    var j :| 0 <= j <= |s| && LitAt(s, j, "####");
    assert s[j..j + 3] == s[j..j + 4][..3];
    assert LitAt(s, j, "###");
  }

  /** A text with no `<div`, no closing tag and newline and no `###` comes back unchanged. */
  lemma SanitizeKeepsPlainText(k: Classes, s: string)
    requires !Occurs("<div", s) && !Occurs(CloseTag, s) && !Occurs("###", s)
    ensures SanitizeText(k, s) == s
  {
    AlertToQuoteKeepsOtherText(k, s);
    DropClosingDivKeepsOtherText(k, s);
    SubWithoutText(k, Heading3, "## ", s);
    if Occurs("####", s) {
      Level4TextContainsLevel3Text(s);
    }
    SubWithoutText(k, Heading4, "### ", s);
  }

  // ---------------------------------------------------------------------------
  // Worked examples

  /** Text without `#`, `<div` or closing tags passes through all four lines. */
  lemma PlainWordPasses(k: Classes, w: string)
    requires '<' !in w && '#' !in w
    ensures AlertToQuote(k, w) == w && DropClosingDiv(k, w) == w
    ensures UpscaleLevel3(k, w) == w && UpscaleLevel4(k, w) == w
  {
    SubWithoutLead(k, AlertOpening, ">", w);
    SubWithoutLead(k, ClosingDiv, "", w);
    SubWithoutLead(k, Heading3, "## ", w);
    SubWithoutLead(k, Heading4, "### ", w);
  }

  /** A closing tag holds no opening `<div`. */
  lemma CloseTagHasNoOpening()
    ensures !Occurs("<div", CloseTag)
  {
    NotOccursWithoutLead("<div", CloseTag[1..]);
    forall j | 0 <= j <= |CloseTag| ensures !LitAt(CloseTag, j, "<div") {
      if j == 0 {
        assert CloseTag[0..4][1] != "<div"[1];
      } else if j + 4 <= 7 {
        assert CloseTag[j..j + 4] == CloseTag[1..][j - 1..j + 3];
        assert !LitAt(CloseTag[1..], j - 1, "<div");
      }
    }
  }

  /** Line 25 on a whole alert box leaves `>`, the line of text and the closing tag. */
  lemma AlertBoxAfterLine25(k: Classes, c1: char, ts: string, sep: string, style: string,
                            variant: string, c2: char, indent: string,
                            name: string, c3: char, w: string)
    requires Sound(k) && AlertShape(k, c1, ts, sep, style, variant, c2, indent)
    requires IsRun(k, Word, name) && k.isSpace(c3) && '<' !in w
    ensures AlertToQuote(k, AlertText(c1, ts, sep, style, variant, c2, indent,
                                      LabelText(name, c3, w + CloseTag)))
         == ">" + w + CloseTag
  {
    calc {
      AlertToQuote(k, AlertText(c1, ts, sep, style, variant, c2, indent, LabelText(name, c3, w + CloseTag)));
      { AlertWithLabelBecomesQuote(k, c1, ts, sep, style, variant, c2, indent, name, c3, w + CloseTag); }
      ">" + AlertToQuote(k, w + CloseTag);
      { SubPrefixWithoutLead(k, AlertOpening, ">", w, CloseTag); }
      ">" + (w + AlertToQuote(k, CloseTag));
      { CloseTagHasNoOpening(); AlertToQuoteKeepsOtherText(k, CloseTag); }
      ">" + w + CloseTag;
    }
  }

  /**
   A whole alert box, its opening tag with a label, a line of text `w` and the closing
   tag, comes out of the four lines as `>` and `w`: no space after `>` and no newline
   after `w`.
   */
  lemma AlertBoxSanitized(k: Classes, c1: char, ts: string, sep: string, style: string,
                          variant: string, c2: char, indent: string,
                          name: string, c3: char, w: string)
    requires Sound(k) && AlertShape(k, c1, ts, sep, style, variant, c2, indent)
    requires IsRun(k, Word, name) && k.isSpace(c3) && '<' !in w && '#' !in w
    ensures SanitizeText(k, AlertText(c1, ts, sep, style, variant, c2, indent,
                                      LabelText(name, c3, w + CloseTag)))
         == ">" + w
  {
    var q := ">" + w;
    AlertBoxAfterLine25(k, c1, ts, sep, style, variant, c2, indent, name, c3, w);
    calc {
      DropClosingDiv(k, q + CloseTag);
      { assert q + CloseTag == q + CloseTag + [];
        NotOccursWithoutLead(CloseTag, q);
        DropClosingDivRemovesTag(k, q, []); }
      q + DropClosingDiv(k, []);
      { PlainWordPasses(k, []); }
      q;
    }
    PlainWordPasses(k, q);
  }

  /** Both alert examples' opening tags begin with `<div class='alert alert-`. */
  lemma AlertClassText(variant: string)
    ensures Concat(TagPieces(' ', "t", " ", "alert", variant, ' ', "  ")[..7]) == "<div class='alert alert-"
  {
    var ws := TagPieces(' ', "t", " ", "alert", variant, ' ', "  ");
    AlertClassHead(variant);
    ConcatStep(ws, 4, "<div class='alert", "<div class='alert ");
    ConcatStep(ws, 5, "<div class='alert ", "<div class='alert alert");
    ConcatStep(ws, 6, "<div class='alert alert", "<div class='alert alert-");
  }

  lemma AlertClassHead(variant: string)
    ensures Concat(TagPieces(' ', "t", " ", "alert", variant, ' ', "  ")[..4]) == "<div class='alert"
  {
    var ws := TagPieces(' ', "t", " ", "alert", variant, ' ', "  ");
    assert ws[..0] == [];
    ConcatStep(ws, 0, "", "<div");
    ConcatStep(ws, 1, "<div", "<div ");
    ConcatStep(ws, 2, "<div ", "<div class='aler");
    ConcatStep(ws, 3, "<div class='aler", "<div class='alert");
  }

  /** After `alert-`, an opening tag is its variant and a fixed ending. */
  lemma AlertTagEnding(variant: string)
    ensures Concat(TagPieces(' ', "t", " ", "alert", variant, ' ', "  ")[7..]) == variant + "' role='alert'>\n  "
  {
    var ws := TagPieces(' ', "t", " ", "alert", variant, ' ', "  ");
    assert ws[12..] == [];
    ConcatFrom(ws, 11);
    ConcatFrom(ws, 10);
    ConcatFrom(ws, 9);
    ConcatFrom(ws, 8);
    ConcatFrom(ws, 7);
  }

  /** The opening tag of both alert examples, with its variant left open. */
  lemma AlertTagText(variant: string)
    ensures Concat(TagPieces(' ', "t", " ", "alert", variant, ' ', "  "))
         == "<div class='alert alert-" + (variant + "' role='alert'>\n  ")
  {
    var ws := TagPieces(' ', "t", " ", "alert", variant, ' ', "  ");
    assert ws == ws[..7] + ws[7..];
    ConcatAppend(ws[..7], ws[7..]);
    AlertClassText(variant);
    AlertTagEnding(variant);
  }

  /** A label is `<strong>`, its word, `:</strong>` and its whitespace character. */
  lemma LabelTextOf(name: string, c3: char, tail: string)
    ensures LabelText(name, c3, tail) == "<strong>" + (name + (":</strong>" + ([c3] + tail)))
  {
    var ws := LabelPieces(name, c3);
    assert ws[4..] == [];
    ConcatFrom(ws, 3);
    ConcatFrom(ws, 2);
    ConcatFrom(ws, 1);
    ConcatFrom(ws, 0);
    assert ws[0..] == ws;
  }

  lemma InfoTagLiteral()
    ensures "<div class='alert alert-" + ("info" + "' role='alert'>\n  ") == "<div class='alert alert-info' role='alert'>\n  "
  {
    assert "info" + "' role='alert'>\n  " == "info' role='alert'>\n  ";
  }

  lemma NoteLabelLiteral()
    ensures "<strong>" + ("Note" + (":</strong>" + ([' '] + "Hello"))) == "<strong>Note:</strong> Hello"
  {
    assert ":</strong>" + ([' '] + "Hello") == ":</strong> Hello";
  }

  lemma InfoAlertLiteral()
    ensures "<div class='alert alert-info' role='alert'>\n  " + "<strong>Note:</strong> Hello"
         == "<div class='alert alert-info' role='alert'>\n  <strong>Note:</strong> Hello"
  {
  }

  lemma WarningTagLiteral()
    ensures "<div class='alert alert-" + ("warning" + "' role='alert'>\n  ")
         == "<div class='alert alert-warning' role='alert'>\n  "
  {
    assert "warning" + "' role='alert'>\n  " == "warning' role='alert'>\n  ";
  }

  lemma WarningAlertLiteral()
    ensures "<div class='alert alert-warning' role='alert'>\n  " + "Careful here"
         == "<div class='alert alert-warning' role='alert'>\n  Careful here"
  {
  }

  lemma InfoTagShaped(k: Classes)
    requires Sound(k)
    ensures AlertShape(k, ' ', "t", " ", "alert", "info", ' ', "  ")
  {
    assert AsciiSpace(' ') && AsciiWord('t');
    assert AsciiWord('a') && AsciiWord('l') && AsciiWord('e') && AsciiWord('r');
    assert AsciiWord('i') && AsciiWord('n') && AsciiWord('f') && AsciiWord('o');
  }

  lemma WarningTagShaped(k: Classes)
    requires Sound(k)
    ensures AlertShape(k, ' ', "t", " ", "alert", "warning", ' ', "  ")
  {
    assert AsciiSpace(' ') && AsciiWord('t');
    assert AsciiWord('a') && AsciiWord('l') && AsciiWord('e') && AsciiWord('r');
    assert AsciiWord('w') && AsciiWord('n') && AsciiWord('i') && AsciiWord('g');
  }

  lemma NoteIsWord(k: Classes)
    requires Sound(k)
    ensures IsRun(k, Word, "Note")
  {
    assert AsciiWord('N') && AsciiWord('o') && AsciiWord('t') && AsciiWord('e');
  }

  lemma InfoAlertText()
    ensures AlertText(' ', "t", " ", "alert", "info", ' ', "  ", LabelText("Note", ' ', "Hello"))
         == "<div class='alert alert-info' role='alert'>\n  <strong>Note:</strong> Hello"
  {
    var variant, name, tail := "info", "Note", "Hello";
    calc {
      AlertText(' ', "t", " ", "alert", variant, ' ', "  ", LabelText(name, ' ', tail));
      { AlertTagText(variant); LabelTextOf(name, ' ', tail); }
      ("<div class='alert alert-" + (variant + "' role='alert'>\n  "))
        + ("<strong>" + (name + (":</strong>" + ([' '] + tail))));
      { InfoTagLiteral(); NoteLabelLiteral(); }
      "<div class='alert alert-info' role='alert'>\n  " + "<strong>Note:</strong> Hello";
      { InfoAlertLiteral(); }
      "<div class='alert alert-info' role='alert'>\n  <strong>Note:</strong> Hello";
    }
  }

  lemma WarningAlertText()
    ensures AlertText(' ', "t", " ", "alert", "warning", ' ', "  ", "Careful here")
         == "<div class='alert alert-warning' role='alert'>\n  Careful here"
  {
    var variant, tail := "warning", "Careful here";
    calc {
      AlertText(' ', "t", " ", "alert", variant, ' ', "  ", tail);
      { AlertTagText(variant); }
      ("<div class='alert alert-" + (variant + "' role='alert'>\n  ")) + tail;
      { WarningTagLiteral(); }
      "<div class='alert alert-warning' role='alert'>\n  " + "Careful here";
      { WarningAlertLiteral(); }
      "<div class='alert alert-warning' role='alert'>\n  Careful here";
    }
  }

  /** An info alert with a `Note:` label: the tag and the label become one `>`. */
  lemma LabelledAlertExample(k: Classes)
    requires Sound(k)
    ensures AlertToQuote(k, "<div class='alert alert-info' role='alert'>\n  <strong>Note:</strong> Hello")
         == ">Hello"
  {
    calc {
      AlertToQuote(k, "<div class='alert alert-info' role='alert'>\n  <strong>Note:</strong> Hello");
      { InfoAlertText(); }
      AlertToQuote(k, AlertText(' ', "t", " ", "alert", "info", ' ', "  ", LabelText("Note", ' ', "Hello")));
      { InfoTagShaped(k); NoteIsWord(k);
        AlertWithLabelBecomesQuote(k, ' ', "t", " ", "alert", "info", ' ', "  ", "Note", ' ', "Hello"); }
      ">" + AlertToQuote(k, "Hello");
      { PlainWordPasses(k, "Hello"); }
      ">" + "Hello";
      ">Hello";
    }
  }

  /** A warning alert without a label: the tag and the indentation become `>`. */
  lemma UnlabelledAlertExample(k: Classes)
    requires Sound(k)
    ensures AlertToQuote(k, "<div class='alert alert-warning' role='alert'>\n  Careful here")
         == ">Careful here"
  {
    calc {
      AlertToQuote(k, "<div class='alert alert-warning' role='alert'>\n  Careful here");
      { WarningAlertText(); }
      AlertToQuote(k, AlertText(' ', "t", " ", "alert", "warning", ' ', "  ", "Careful here"));
      { WarningTagShaped(k); CarefulHereIsNoLabel(k);
        AlertWithoutLabelBecomesQuote(k, ' ', "t", " ", "alert", "warning", ' ', "  ", "Careful here"); }
      ">" + AlertToQuote(k, "Careful here");
      { PlainWordPasses(k, "Careful here"); }
      ">" + "Careful here";
      ">Careful here";
    }
  }

  lemma CarefulHereIsNoLabel(k: Classes)
    requires Sound(k)
    ensures !k.isSpace("Careful here"[0]) && !LitAt("Careful here", 0, "<strong>")
  {
    assert AsciiWord('C');
    assert "Careful here"[0..8][0] != "<strong>"[0];
  }

  /** A whitespace run after `###` may hold newlines; it still becomes one space. */
  lemma NewlinesAfterMarkerExample(k: Classes)
    requires Sound(k)
    ensures UpscaleLevel3(k, "###\n\nText") == "## Text"
  {
    var ws, rest := "\n\n", "Text";
    assert IsRun(k, Space, ws) by { assert AsciiSpace('\n'); }
    assert !k.isSpace(rest[0]) by { assert AsciiWord('T'); }
    calc {
      UpscaleLevel3(k, "###\n\nText");
      { assert "###\n\nText" == "###" + (ws + rest); }
      UpscaleLevel3(k, "###" + (ws + rest));
      { Level3HeadingUpscaled(k, ws, rest); }
      "## " + UpscaleLevel3(k, rest);
      { PlainWordPasses(k, rest); }
      "## " + rest;
    }
  }

  /**
   Run in the other order, lines 29 and 28 would turn a level-4 heading into a level-2
   one, where the order of the source gives level 3: the two steps do not commute.
   */
  lemma HeadingStepsDoNotCommute(k: Classes, w: string)
    requires Sound(k) && w != [] && !k.isSpace(w[0]) && '<' !in w && '#' !in w
    ensures UpscaleLevel3(k, UpscaleLevel4(k, "#### " + w)) == "## " + w
    ensures UpscaleLevel4(k, UpscaleLevel3(k, "#### " + w)) == "### " + w
  {
    var ws := " ";
    assert IsRun(k, Space, ws) by { assert AsciiSpace(' '); }
    PlainWordPasses(k, w);
    calc {
      UpscaleLevel3(k, UpscaleLevel4(k, "#### " + w));
      { assert "#### " + w == "####" + (ws + w); }
      UpscaleLevel3(k, UpscaleLevel4(k, "####" + (ws + w)));
      { Level4MarkerRewritten(k, ws, w); }
      UpscaleLevel3(k, "### " + w);
      { assert "### " + w == "###" + (ws + w); }
      UpscaleLevel3(k, "###" + (ws + w));
      { Level3HeadingUpscaled(k, ws, w); }
      "## " + w;
    }
    calc {
      UpscaleLevel4(k, UpscaleLevel3(k, "#### " + w));
      { assert "#### " + w == "####" + (ws + w); }
      UpscaleLevel4(k, UpscaleLevel3(k, "####" + (ws + w)));
      { Level4HeadingUpscaled(k, ws, w); }
      "### " + w;
    }
  }

  /** Five `#` end as three. */
  lemma Level5HeadingExample(k: Classes)
    requires Sound(k)
    ensures UpscaleLevel4(k, UpscaleLevel3(k, "##### x")) == "### x"
  {
    var ws, rest := " ", "x";
    assert IsRun(k, Space, ws) by { assert AsciiSpace(' '); }
    assert !k.isSpace(rest[0]) by { assert AsciiWord('x'); }
    calc {
      UpscaleLevel4(k, UpscaleLevel3(k, "##### x"));
      { assert "##### x" == "#####" + (ws + rest); }
      UpscaleLevel4(k, UpscaleLevel3(k, "#####" + (ws + rest)));
      { Level5HeadingUpscaled(k, ws, rest); }
      "### " + UpscaleLevel4(k, UpscaleLevel3(k, rest));
      { PlainWordPasses(k, rest); }
      "### " + rest;
    }
  }

  /** Fewer than three `#` and a space, like `# Title` or `## Intro`, pass lines 28 and 29. */
  lemma ShortMarkerUnchanged(k: Classes, a: string, w: string)
    requires |a| < 3 && '<' !in w && '#' !in w
    ensures UpscaleLevel4(k, UpscaleLevel3(k, a + [' '] + w)) == a + [' '] + w
  {
    PlainWordPasses(k, w);
    ShortPrefixKept(k, a, ' ', w);
  }

  /** `###` glued to a word, like `###x`, passes lines 28 and 29. */
  lemma GluedMarkerUnchanged(k: Classes, w: string)
    requires w != [] && !k.isSpace(w[0]) && '<' !in w && '#' !in w
    ensures UpscaleLevel4(k, UpscaleLevel3(k, "###" + w)) == "###" + w
  {
    PlainWordPasses(k, w);
    Level3WithoutWhitespaceKept(k, w);
  }
}
