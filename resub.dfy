/**
 Python's `re.sub` for a pattern that cannot match the empty string. `SubFrom` is
 the scanner the rewrite is modelled with: at each position it tries the pattern,
 emits the replacement and resumes after a match, and otherwise copies one
 character. `PySubFrom` is the loop Python runs: search for the leftmost match,
 copy the text before it, emit the replacement and continue from the end of the
 match. `ScannerIsPythonSub` shows the two agree on deterministic patterns; the
 remaining lemmas are the tools used to compute the scanner on concrete text.
 */
module ReSub {
  import opened CharClasses
  import opened Regex

  /** The result of substituting every match in `s` from position `i` on. */
  function SubFrom(k: Classes, p: seq<Atom>, r: string, s: string, i: nat): string
    requires i <= |s| && StartsWithText(p)
    decreases |s| - i
  {
    if i == |s| then []
    else
      match Greedy(k, p, s, i)
      case Some(e) => r + SubFrom(k, p, r, s, e)
      case None => [s[i]] + SubFrom(k, p, r, s, i + 1)
  }

  function Sub(k: Classes, p: seq<Atom>, r: string, s: string): string
    requires StartsWithText(p)
  {
    SubFrom(k, p, r, s, 0)
  }

  /** The leftmost position at or after `i` where Python's matcher succeeds. */
  function Search(k: Classes, p: seq<Atom>, s: string, i: nat): (r: Option<nat>)
    requires i <= |s|
    ensures r.Some? ==> i <= r.value <= |s| && Backtrack(k, p, s, r.value).Some?
    ensures forall j :: i <= j <= |s| && (r.None? || j < r.value) ==> Backtrack(k, p, s, j).None?
    decreases |s| - i
  {
    if Backtrack(k, p, s, i).Some? then Some(i)
    else if i == |s| then None
    else Search(k, p, s, i + 1)
  }

  /** Python's substitution loop, from position `i`. */
  function PySubFrom(k: Classes, p: seq<Atom>, r: string, s: string, i: nat): string
    requires i <= |s| && StartsWithText(p)
    decreases |s| - i
  {
    match Search(k, p, s, i)
    case None => s[i..]
    case Some(j) => s[i..j] + r + PySubFrom(k, p, r, s, Backtrack(k, p, s, j).value)
  }

  function PySub(k: Classes, p: seq<Atom>, r: string, s: string): string
    requires StartsWithText(p)
  {
    PySubFrom(k, p, r, s, 0)
  }

  /** Where Python finds no match, its loop copies the character and moves on. */
  lemma PySubCopies(k: Classes, p: seq<Atom>, r: string, s: string, i: nat)
    requires i < |s| && StartsWithText(p) && Backtrack(k, p, s, i).None?
    ensures PySubFrom(k, p, r, s, i) == [s[i]] + PySubFrom(k, p, r, s, i + 1)
  {
    match Search(k, p, s, i + 1)
    case None =>
      assert s[i..] == [s[i]] + s[i + 1..];
    case Some(j) =>
      assert s[i..j] == [s[i]] + s[i + 1..j];
  }

  /** On a deterministic pattern the scanner computes what `re.sub` computes. */
  lemma {:induction false} ScannerIsPythonSub(k: Classes, p: seq<Atom>, r: string, s: string, i: nat)
    requires i <= |s| && StartsWithText(p) && Deterministic(k, p)
    ensures SubFrom(k, p, r, s, i) == PySubFrom(k, p, r, s, i)
    decreases |s| - i
  {
    GreedyIsBacktracking(k, p, s, i);
    if i == |s| {
      assert Backtrack(k, p, s, i).None?;
    } else {
      match Greedy(k, p, s, i)
      case Some(e) =>
        ScannerIsPythonSub(k, p, r, s, e);
        assert s[i..i] == [];
      case None =>
        PySubCopies(k, p, r, s, i);
        ScannerIsPythonSub(k, p, r, s, i + 1);
    }
  }

  function Shifted(o: Option<nat>, d: nat): Option<nat> {
    match o
    case None => None
    case Some(v) => Some(v + d)
  }

  lemma LitAtShift(a: string, b: string, i: nat, w: string)
    requires i <= |b|
    ensures LitAt(a + b, |a| + i, w) == LitAt(b, i, w)
  {
    if i + |w| <= |b| {
      assert (a + b)[|a| + i..|a| + i + |w|] == b[i..i + |w|];
    }
  }

  lemma {:induction false} RunShift(k: Classes, c: Class, a: string, b: string, i: nat)
    requires i <= |b|
    ensures Run(k, c, a + b, |a| + i) == Run(k, c, b, i)
    decreases |b| - i
  {
    if i < |b| {
      assert (a + b)[|a| + i] == b[i];
      RunShift(k, c, a, b, i + 1);
    }
  }

  /** Matching looks only at the text from the start position on. */
  lemma {:induction false} GreedyShift(k: Classes, p: seq<Atom>, a: string, b: string, i: nat)
    requires i <= |b|
    ensures Greedy(k, p, a + b, |a| + i) == Shifted(Greedy(k, p, b, i), |a|)
    decreases Size(p), 1
  {
    if p != [] {
      match p[0]
      case Lit(_) => GreedyShiftLit(k, p, a, b, i);
      case One(_) => GreedyShiftOne(k, p, a, b, i);
      case Plus(_) => GreedyShiftPlus(k, p, a, b, i);
      case Opt(_) => GreedyShiftGroup(k, p, a, b, i);
    }
  }

  lemma {:induction false} GreedyShiftLit(k: Classes, p: seq<Atom>, a: string, b: string, i: nat)
    requires i <= |b| && p != [] && p[0].Lit?
    ensures Greedy(k, p, a + b, |a| + i) == Shifted(Greedy(k, p, b, i), |a|)
    decreases Size(p), 0
  {
    var w := p[0].text;
    LitAtShift(a, b, i, w);
    if LitAt(b, i, w) {
      GreedyShift(k, p[1..], a, b, i + |w|);
    }
  }

  lemma {:induction false} GreedyShiftOne(k: Classes, p: seq<Atom>, a: string, b: string, i: nat)
    requires i <= |b| && p != [] && p[0].One?
    ensures Greedy(k, p, a + b, |a| + i) == Shifted(Greedy(k, p, b, i), |a|)
    decreases Size(p), 0
  {
    if i < |b| {
      assert (a + b)[|a| + i] == b[i];
      if Has(k, p[0].cls, b[i]) {
        GreedyShift(k, p[1..], a, b, i + 1);
      }
    }
  }

  lemma {:induction false} GreedyShiftPlus(k: Classes, p: seq<Atom>, a: string, b: string, i: nat)
    requires i <= |b| && p != [] && p[0].Plus?
    ensures Greedy(k, p, a + b, |a| + i) == Shifted(Greedy(k, p, b, i), |a|)
    decreases Size(p), 0
  {
    var c := p[0].cls;
    RunShift(k, c, a, b, i);
    var n := Run(k, c, b, i);
    if n > 0 {
      GreedyShift(k, p[1..], a, b, i + n);
    }
  }

  lemma {:induction false} GreedyShiftGroup(k: Classes, p: seq<Atom>, a: string, b: string, i: nat)
    requires i <= |b| && p != [] && p[0].Opt?
    ensures Greedy(k, p, a + b, |a| + i) == Shifted(Greedy(k, p, b, i), |a|)
    decreases Size(p), 0
  {
    var q := p[0].group;
    GreedyShift(k, q, a, b, i);
    match Greedy(k, q, b, i)
    case Some(j) => GreedyShift(k, p[1..], a, b, j);
    case None => GreedyShift(k, p[1..], a, b, i);
  }

  lemma {:induction false} SubShift(k: Classes, p: seq<Atom>, r: string, a: string, b: string, i: nat)
    requires i <= |b| && StartsWithText(p)
    ensures SubFrom(k, p, r, a + b, |a| + i) == SubFrom(k, p, r, b, i)
    decreases |b| - i
  {
    if i < |b| {
      GreedyShift(k, p, a, b, i);
      assert (a + b)[|a| + i] == b[i];
      match Greedy(k, p, b, i)
      case Some(e) => SubShift(k, p, r, a, b, e);
      case None => SubShift(k, p, r, a, b, i + 1);
    }
  }

  /** Substituting from position `e` on is substituting in the suffix that starts there. */
  lemma SubFromSuffix(k: Classes, p: seq<Atom>, r: string, s: string, e: nat)
    requires e <= |s| && StartsWithText(p)
    ensures SubFrom(k, p, r, s, e) == Sub(k, p, r, s[e..])
  {
    assert s == s[..e] + s[e..];
    SubShift(k, p, r, s[..e], s[e..], 0);
  }

  /** A match at `i` emits the replacement, and substitution resumes on the rest of the text. */
  lemma SubFromMatch(k: Classes, p: seq<Atom>, r: string, s: string, i: nat, e: nat)
    requires i <= |s| && StartsWithText(p) && Greedy(k, p, s, i) == Some(e)
    ensures SubFrom(k, p, r, s, i) == r + Sub(k, p, r, s[e..])
  {
    SubFromSuffix(k, p, r, s, e);
  }

  /** Positions where nothing matches are copied unchanged. */
  lemma {:induction false} SubFromCopies(k: Classes, p: seq<Atom>, r: string, s: string, i: nat, m: nat)
    requires i <= m <= |s| && StartsWithText(p)
    requires forall j :: i <= j < m ==> Greedy(k, p, s, j).None?
    ensures SubFrom(k, p, r, s, i) == s[i..m] + SubFrom(k, p, r, s, m)
    decreases m - i
  {
    if i < m {
      SubFromCopies(k, p, r, s, i + 1, m);
      assert s[i..m] == [s[i]] + s[i + 1..m];
    }
  }

  /** With no match anywhere, the substitution returns its input. */
  lemma SubIdentity(k: Classes, p: seq<Atom>, r: string, s: string)
    requires StartsWithText(p)
    requires forall j :: 0 <= j < |s| ==> Greedy(k, p, s, j).None?
    ensures Sub(k, p, r, s) == s
  {
    SubFromCopies(k, p, r, s, 0, |s|);
  }

  /** A prefix in which no match starts is copied, and the rest is substituted on its own. */
  lemma SubSkipsPrefix(k: Classes, p: seq<Atom>, r: string, a: string, b: string)
    requires StartsWithText(p)
    requires forall j :: 0 <= j < |a| ==> Greedy(k, p, a + b, j).None?
    ensures Sub(k, p, r, a + b) == a + Sub(k, p, r, b)
  {
    SubFromCopies(k, p, r, a + b, 0, |a|);
    assert (a + b)[..|a|] == a;
    SubShift(k, p, r, a, b, 0);
  }

  /** No match starts where the first character of the pattern's text is missing. */
  lemma NoMatchWithoutLead(k: Classes, p: seq<Atom>, s: string, j: nat)
    requires j <= |s| && StartsWithText(p) && (j == |s| || s[j] != p[0].text[0])
    ensures Greedy(k, p, s, j).None?
  {
    if j + |p[0].text| <= |s| {
      assert s[j..j + |p[0].text|][0] == s[j];
    }
  }

  /** Text without the first character of the pattern is left as it is. */
  lemma SubWithoutLead(k: Classes, p: seq<Atom>, r: string, s: string)
    requires StartsWithText(p) && p[0].text[0] !in s
    ensures Sub(k, p, r, s) == s
  {
    forall j | 0 <= j < |s| ensures Greedy(k, p, s, j).None? {
      assert s[j] in s;
      NoMatchWithoutLead(k, p, s, j);
    }
    SubIdentity(k, p, r, s);
  }

  /** A prefix without the first character of the pattern is copied unchanged. */
  lemma SubPrefixWithoutLead(k: Classes, p: seq<Atom>, r: string, a: string, b: string)
    requires StartsWithText(p) && p[0].text[0] !in a
    ensures Sub(k, p, r, a + b) == a + Sub(k, p, r, b)
  {
    forall j | 0 <= j < |a| ensures Greedy(k, p, a + b, j).None? {
      assert (a + b)[j] == a[j] && a[j] in a;
      NoMatchWithoutLead(k, p, a + b, j);
    }
    SubSkipsPrefix(k, p, r, a, b);
  }

  /**
   A prefix shorter than the pattern's text, followed by a character the text does
   not contain, holds no match start: every such match would cover that character.
   */
  lemma SubSkipsShortPrefix(k: Classes, p: seq<Atom>, r: string, a: string, c: char, b: string)
    requires StartsWithText(p) && |a| < |p[0].text| && c !in p[0].text
    ensures Sub(k, p, r, a + [c] + b) == a + [c] + Sub(k, p, r, b)
  {
    var w := p[0].text;
    var s := a + [c] + b;
    forall j | 0 <= j < |a + [c]| ensures Greedy(k, p, s, j).None? {
      if j + |w| <= |s| {
        assert s[j..j + |w|][|a| - j] == s[|a|] == c;
        assert w[|a| - j] in w;
      }
    }
    SubSkipsPrefix(k, p, r, a + [c], b);
  }

  /** `w` occurs somewhere in `s`. */
  predicate Occurs(w: string, s: string) {
    exists j | 0 <= j <= |s| :: LitAt(s, j, w)
  }

  /** A text without the first character of `w` holds no occurrence of `w`. */
  lemma NotOccursWithoutLead(w: string, s: string)
    requires |w| > 0 && w[0] !in s
    ensures !Occurs(w, s)
  {
    forall j | 0 <= j <= |s| ensures !LitAt(s, j, w) {
      if j + |w| <= |s| {
        assert s[j..j + |w|][0] == s[j] && s[j] in s;
      }
    }
  }

  /** Text in which the pattern's leading text never occurs is left as it is. */
  lemma SubWithoutText(k: Classes, p: seq<Atom>, r: string, s: string)
    requires StartsWithText(p) && !Occurs(p[0].text, s)
    ensures Sub(k, p, r, s) == s
  {
    forall j | 0 <= j < |s| ensures Greedy(k, p, s, j).None? {
      assert !LitAt(s, j, p[0].text);
    }
    SubIdentity(k, p, r, s);
  }

  /** Every character of `w` belongs to class `c`. */
  predicate AllHave(k: Classes, c: Class, w: string)
    decreases |w|
  {
    w == [] || (Has(k, c, w[0]) && AllHave(k, c, w[1..]))
  }

  /** `w` is a non-empty string of characters of class `c`. */
  predicate IsRun(k: Classes, c: Class, w: string) {
    |w| > 0 && AllHave(k, c, w)
  }

  /** `s` continues at `i` with `w` and then `t`. */
  lemma PieceAt(s: string, i: nat, w: string, t: string)
    requires i <= |s| && s[i..] == w + t
    ensures LitAt(s, i, w) && s[i + |w|..] == t && |s| == i + |w| + |t|
    ensures |t| > 0 ==> s[i + |w|] == t[0]
  {
    assert s[i..][..|w|] == w && s[i..][|w|..] == t;
    if |t| > 0 {
      assert s[i..][|w|] == t[0];
    }
  }

  /** A run starting at `i` covers exactly the class characters written there. */
  lemma {:induction false} RunAt(k: Classes, c: Class, s: string, i: nat, w: string)
    requires LitAt(s, i, w) && AllHave(k, c, w)
    requires i + |w| == |s| || !Has(k, c, s[i + |w|])
    ensures Run(k, c, s, i) == |w|
    decreases |w|
  {
    if w != [] {
      assert s[i..i + |w|][0] == s[i];
      assert s[i + 1..i + |w|] == s[i..i + |w|][1..];
      RunAt(k, c, s, i + 1, w[1..]);
    }
  }

  // Matching a text laid out piece by piece, one piece per atom.

  /** The pieces of `ws` written one after another. */
  function Concat(ws: seq<string>): string
    decreases |ws|
  {
    if ws == [] then [] else ws[0] + Concat(ws[1..])
  }

  /** The text made of pieces and then `rest` begins with the first piece's first character. */
  lemma ConcatHead(ws: seq<string>, rest: string)
    requires ws != [] && |ws[0]| > 0
    ensures |Concat(ws) + rest| > 0 && (Concat(ws) + rest)[0] == ws[0][0]
  {
    assert Concat(ws) + rest == ws[0] + (Concat(ws[1..]) + rest);
  }

  /**
   What atom `a` needs of the piece `w` it takes whole when `next` is what follows:
   its literal (non-empty) text, one character of its class, or a run of its class
   that `next` does not continue.
   */
  predicate FitsHead(k: Classes, a: Atom, w: string, next: string) {
    match a
    case Lit(x) => w == x && |x| > 0
    case One(c) => |w| == 1 && Has(k, c, w[0])
    case Plus(c) => IsRun(k, c, w) && (next == [] || !Has(k, c, next[0]))
    case Opt(_) => false
  }

  /** What follows piece `m`: the next piece, or `rest` after the last one. */
  function NextPiece(ws: seq<string>, rest: string, m: nat): string
    requires m < |ws|
  {
    if m + 1 < |ws| then ws[m + 1] else rest
  }

  /** Each piece of `ws` is what the atom of `p` at the same place takes whole. */
  predicate Fits(k: Classes, p: seq<Atom>, ws: seq<string>, rest: string) {
    |p| == |ws| && forall m :: 0 <= m < |p| ==> FitsHead(k, p[m], ws[m], NextPiece(ws, rest, m))
  }

  /** Where piece `m` starts, when the pieces are laid out from `i` on. */
  function PieceStart(ws: seq<string>, i: nat, m: nat): nat
    requires m <= |ws|
  {
    if m == 0 then i else PieceStart(ws, i, m - 1) + |ws[m - 1]|
  }

  /** The text from the start of piece `m` on is the remaining pieces and then `rest`. */
  lemma {:induction false} LayoutFrom(ws: seq<string>, rest: string, s: string, i: nat, m: nat)
    requires i <= |s| && s[i..] == Concat(ws) + rest && m <= |ws|
    ensures PieceStart(ws, i, m) <= |s| && s[PieceStart(ws, i, m)..] == Concat(ws[m..]) + rest
    decreases m
  {
    if m == 0 {
      assert ws[0..] == ws;
    } else {
      LayoutFrom(ws, rest, s, i, m - 1);
      assert Concat(ws[m - 1..]) == ws[m - 1] + Concat(ws[m..]) by {
        assert ws[m - 1..][0] == ws[m - 1] && ws[m - 1..][1..] == ws[m..];
      }
      PieceAt(s, PieceStart(ws, i, m - 1), ws[m - 1], Concat(ws[m..]) + rest);
    }
  }

  /** The scanner takes a fitting piece with the first atom and moves on to the next. */
  lemma GreedyStep(k: Classes, p: seq<Atom>, w: string, t: string, s: string, i: nat)
    requires p != [] && i <= |s| && s[i..] == w + t && FitsHead(k, p[0], w, t)
    ensures i + |w| <= |s|
    ensures Greedy(k, p, s, i) == Greedy(k, p[1..], s, i + |w|)
  {
    PieceAt(s, i, w, t);
    match p[0]
    case Lit(_) =>
    case One(c) =>
      assert s[i..i + 1][0] == s[i];
    case Plus(c) =>
      RunAt(k, c, s, i, w);
  }

  /** From the start of piece `m`, the scanner moves from atom `m` to the start of piece `m + 1`. */
  predicate StepsAt(k: Classes, p: seq<Atom>, q: seq<Atom>, ws: seq<string>, s: string, i: nat, m: nat)
    requires m < |p| == |ws|
  {
    && PieceStart(ws, i, m + 1) <= |s|
    && Greedy(k, p[m..] + q, s, PieceStart(ws, i, m)) == Greedy(k, p[m + 1..] + q, s, PieceStart(ws, i, m + 1))
  }

  lemma SuffixHead(p: seq<Atom>, q: seq<Atom>, m: nat)
    requires m < |p|
    ensures (p[m..] + q) != [] && (p[m..] + q)[0] == p[m] && (p[m..] + q)[1..] == p[m + 1..] + q
  {
  }

  /** Piece `m` fits before the text of the pieces after it. */
  lemma FitsBefore(k: Classes, p: seq<Atom>, ws: seq<string>, rest: string, m: nat)
    requires Fits(k, p, ws, rest) && m < |p|
    ensures FitsHead(k, p[m], ws[m], Concat(ws[m + 1..]) + rest)
  {
    assert FitsHead(k, p[m], ws[m], NextPiece(ws, rest, m));
    if m + 1 < |ws| {
      assert FitsHead(k, p[m + 1], ws[m + 1], NextPiece(ws, rest, m + 1));
      ConcatHead(ws[m + 1..], rest);
    } else {
      assert ws[m + 1..] == [];
    }
  }

  lemma ConcatFrom(ws: seq<string>, m: nat)
    requires m < |ws|
    ensures Concat(ws[m..]) == ws[m] + Concat(ws[m + 1..])
  {
    assert ws[m..][0] == ws[m] && ws[m..][1..] == ws[m + 1..];
  }

  lemma {:induction false} ConcatAppend(a: seq<string>, b: seq<string>)
    ensures Concat(a + b) == Concat(a) + Concat(b)
    decreases |a|
  {
    if a == [] {
      assert a + b == b;
    } else {
      assert (a + b)[1..] == a[1..] + b;
      ConcatAppend(a[1..], b);
    }
  }

  /** Adding piece `m` to the first `m` pieces, whose text is `a`, gives the text `b`. */
  lemma ConcatStep(ws: seq<string>, m: nat, a: string, b: string)
    requires m < |ws| && Concat(ws[..m]) == a && a + ws[m] == b
    ensures Concat(ws[..m + 1]) == b
  {
    assert ws[..m + 1] == ws[..m] + [ws[m]];
    ConcatAppend(ws[..m], [ws[m]]);
    assert [ws[m]][1..] == [];
  }

  /** Piece `m`, found where it starts, is taken by atom `m`. */
  lemma GreedyStepAt(k: Classes, p: seq<Atom>, q: seq<Atom>, ws: seq<string>, t: string,
                     s: string, i: nat, m: nat)
    requires m < |p| == |ws| && FitsHead(k, p[m], ws[m], t)
    requires PieceStart(ws, i, m) <= |s| && s[PieceStart(ws, i, m)..] == ws[m] + t
    ensures StepsAt(k, p, q, ws, s, i, m)
  {
    SuffixHead(p, q, m);
    GreedyStep(k, p[m..] + q, ws[m], t, s, PieceStart(ws, i, m));
  }

  /** The steps from atom `0` up to atom `n` compose. */
  lemma {:induction false} GreedyChain(k: Classes, p: seq<Atom>, q: seq<Atom>, ws: seq<string>,
                                       s: string, i: nat, n: nat)
    requires n <= |p| == |ws| && i <= |s|
    requires forall m :: 0 <= m < n ==> StepsAt(k, p, q, ws, s, i, m)
    ensures PieceStart(ws, i, n) <= |s|
    ensures Greedy(k, p + q, s, i) == Greedy(k, p[n..] + q, s, PieceStart(ws, i, n))
    decreases n
  {
    if n == 0 {
      assert p[0..] == p;
    } else {
      GreedyChain(k, p, q, ws, s, i, n - 1);
      assert StepsAt(k, p, q, ws, s, i, n - 1);
    }
  }

  /**
   When the text at `i` is laid out as pieces fitting the atoms of `p`, the scanner
   takes exactly those pieces and carries on with `q` where they end.
   */
  lemma GreedyOverPieces(k: Classes, p: seq<Atom>, q: seq<Atom>, ws: seq<string>,
                         rest: string, s: string, i: nat)
    requires Fits(k, p, ws, rest) && i <= |s| && s[i..] == Concat(ws) + rest
    ensures i + |Concat(ws)| <= |s| && s[i + |Concat(ws)|..] == rest
    ensures Greedy(k, p + q, s, i) == Greedy(k, q, s, i + |Concat(ws)|)
  {
    PieceAt(s, i, Concat(ws), rest);
    forall m | 0 <= m < |p| ensures StepsAt(k, p, q, ws, s, i, m) {
      LayoutFrom(ws, rest, s, i, m);
      ConcatFrom(ws, m);
      FitsBefore(k, p, ws, rest, m);
      GreedyStepAt(k, p, q, ws, Concat(ws[m + 1..]) + rest, s, i, m);
    }
    GreedyChain(k, p, q, ws, s, i, |p|);
    LayoutFrom(ws, rest, s, i, |ws|);
    assert ws[|ws|..] == [] && p[|p|..] + q == q;
    assert PieceStart(ws, i, |ws|) == i + |Concat(ws)|;
  }
}
