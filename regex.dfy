/**
 The fragment of Python's regular expressions that the four rewrite patterns use:
 literal text, one character of a class, a greedy one-or-more run of a class, and a
 greedy optional group. Two matchers are defined over it: `Backtrack`, which tries
 the alternatives in the priority order of Python's backtracking engine, and
 `Greedy`, a deterministic scanner that never backs off. `GreedyIsBacktracking`
 shows the two agree on every pattern where no run can give characters back to
 what follows it (`Deterministic`).
 */
module Regex {
  import opened CharClasses

  datatype Option<T> = None | Some(value: T)

  /** A single-character class: `\s`, `\w`, or one fixed character. */
  datatype Class = Space | Word | Is(ch: char)

  /** Literal text, one class character, a greedy `+` run, or a greedy `(...)?` group. */
  datatype Atom = Lit(text: string) | One(cls: Class) | Plus(cls: Class) | Opt(group: seq<Atom>)

  predicate Has(k: Classes, cls: Class, c: char) {
    match cls
    case Space => k.isSpace(c)
    case Word => k.isWord(c)
    case Is(d) => c == d
  }

  /** Number of atoms, counting those nested in groups. */
  function Size(p: seq<Atom>): nat
    decreases p
  {
    if p == [] then 0
    else (if p[0].Opt? then 1 + Size(p[0].group) else 1) + Size(p[1..])
  }

  lemma {:induction false} SizeAppend(a: seq<Atom>, b: seq<Atom>)
    ensures Size(a + b) == Size(a) + Size(b)
    decreases |a|
  {
    if a != [] {
      assert (a + b)[0] == a[0] && (a + b)[1..] == a[1..] + b;
      SizeAppend(a[1..], b);
    } else {
      assert a + b == b;
    }
  }

  /** `w` occurs in `s` at position `i`. */
  predicate LitAt(s: string, i: nat, w: string) {
    i + |w| <= |s| && s[i..i + |w|] == w
  }

  /** The pattern begins with non-empty literal text, so no match is empty. */
  predicate StartsWithText(p: seq<Atom>) {
    |p| > 0 && p[0].Lit? && |p[0].text| > 0
  }

  /** Length of the longest run of `cls` characters starting at `i`. */
  function Run(k: Classes, cls: Class, s: string, i: nat): (n: nat)
    requires i <= |s|
    ensures i + n <= |s|
    decreases |s| - i
  {
    if i < |s| && Has(k, cls, s[i]) then 1 + Run(k, cls, s, i + 1) else 0
  }

  /** Every character of the run has the class, and the one after it does not. */
  lemma {:induction false} RunSpan(k: Classes, cls: Class, s: string, i: nat)
    requires i <= |s|
    ensures forall j :: i <= j < i + Run(k, cls, s, i) ==> Has(k, cls, s[j])
    ensures i + Run(k, cls, s, i) == |s| || !Has(k, cls, s[i + Run(k, cls, s, i)])
    decreases |s| - i
  {
    if i < |s| && Has(k, cls, s[i]) {
      RunSpan(k, cls, s, i + 1);
    }
  }

  /** The deterministic scanner: every run takes all it can and never gives back. */
  function Greedy(k: Classes, p: seq<Atom>, s: string, i: nat): (r: Option<nat>)
    requires i <= |s|
    ensures r.Some? ==> i <= r.value <= |s|
    ensures r.Some? && StartsWithText(p) ==> i < r.value
    decreases Size(p)
  {
    if p == [] then Some(i)
    else
      match p[0]
      case Lit(w) =>
        if LitAt(s, i, w) then Greedy(k, p[1..], s, i + |w|) else None
      case One(c) =>
        if i < |s| && Has(k, c, s[i]) then Greedy(k, p[1..], s, i + 1) else None
      case Plus(c) =>
        var n := Run(k, c, s, i);
        if n == 0 then None else Greedy(k, p[1..], s, i + n)
      case Opt(q) =>
        match Greedy(k, q, s, i)
        case Some(j) => Greedy(k, p[1..], s, j)
        case None => Greedy(k, p[1..], s, i)
  }

  /** A trailing optional group takes its match when there is one and is skipped otherwise. */
  lemma GreedyLastGroup(k: Classes, q: seq<Atom>, s: string, i: nat)
    requires i <= |s|
    ensures Greedy(k, [Opt(q)], s, i) == if Greedy(k, q, s, i).Some? then Greedy(k, q, s, i) else Some(i)
  {
    assert [Opt(q)][1..] == [];
  }

  /**
   Python's matcher: the end of the first way to match `p` at `i`, trying a run's
   lengths from the longest down and a group before skipping it.
   */
  function Backtrack(k: Classes, p: seq<Atom>, s: string, i: nat): (r: Option<nat>)
    requires i <= |s|
    ensures r.Some? ==> i <= r.value <= |s|
    ensures r.Some? && StartsWithText(p) ==> i < r.value
    decreases Size(p), 0, 0
  {
    if p == [] then Some(i)
    else
      match p[0]
      case Lit(w) =>
        if LitAt(s, i, w) then Backtrack(k, p[1..], s, i + |w|) else None
      case One(c) =>
        if i < |s| && Has(k, c, s[i]) then Backtrack(k, p[1..], s, i + 1) else None
      case Plus(c) =>
        var n := Run(k, c, s, i);
        if n == 0 then None else TryLongest(k, p[1..], s, i, n)
      case Opt(q) =>
        SizeAppend(q, p[1..]);
        var taken := Backtrack(k, q + p[1..], s, i);
        if taken.Some? then taken else Backtrack(k, p[1..], s, i)
  }

  /** The first of run lengths `m`, `m - 1`, ..., `1` after which `rest` matches. */
  function TryLongest(k: Classes, rest: seq<Atom>, s: string, i: nat, m: nat): (r: Option<nat>)
    requires i + m <= |s|
    ensures r.Some? ==> i < r.value <= |s|
    decreases Size(rest), 1, m
  {
    if m == 0 then None
    else
      match Backtrack(k, rest, s, i + m)
      case Some(j) => Some(j)
      case None => TryLongest(k, rest, s, i, m - 1)
  }

  predicate Disjoint(k: Classes, c: Class, d: Class) {
    forall ch :: Has(k, c, ch) ==> !Has(k, d, ch)
  }

  /** Every match of `rest` needs a first character outside `c`. */
  predicate ExcludesHead(k: Classes, c: Class, rest: seq<Atom>) {
    rest != [] &&
    match rest[0]
    case Lit(w) => |w| > 0 && !Has(k, c, w[0])
    case One(d) => Disjoint(k, c, d)
    case Plus(d) => Disjoint(k, c, d)
    case Opt(_) => false
  }

  predicate AllOptional(p: seq<Atom>) {
    forall a :: a in p ==> a.Opt?
  }

  /**
   No run is followed by something that could start with one of its own characters,
   and an optional group comes only last.
   */
  predicate Deterministic(k: Classes, p: seq<Atom>)
    decreases Size(p)
  {
    p == [] ||
    match p[0]
    case Lit(_) => Deterministic(k, p[1..])
    case One(_) => Deterministic(k, p[1..])
    case Plus(c) => (AllOptional(p[1..]) || ExcludesHead(k, c, p[1..])) && Deterministic(k, p[1..])
    case Opt(q) => |p| == 1 && Deterministic(k, q)
  }

  /** The condition `Deterministic` imposes at position `m` of `p`. */
  predicate SteadyAt(k: Classes, p: seq<Atom>, m: nat)
    requires m < |p|
  {
    match p[m]
    case Plus(c) => AllOptional(p[m + 1..]) || ExcludesHead(k, c, p[m + 1..])
    case Opt(q) => m == |p| - 1 && Deterministic(k, q)
    case _ => true
  }

  /** A pattern is deterministic when each of its positions is. */
  lemma {:induction false} DeterministicWhenSteady(k: Classes, p: seq<Atom>)
    requires forall m :: 0 <= m < |p| ==> SteadyAt(k, p, m)
    ensures Deterministic(k, p)
    decreases |p|
  {
    if p != [] {
      forall m | 0 <= m < |p[1..]| ensures SteadyAt(k, p[1..], m) {
        assert SteadyAt(k, p, m + 1);
        assert p[1..][m] == p[m + 1] && p[1..][m + 1..] == p[m + 2..];
      }
      DeterministicWhenSteady(k, p[1..]);
      assert SteadyAt(k, p, 0);
    }
  }

  /** A pattern made of optional groups only always matches. */
  lemma {:induction false} AllOptionalMatches(k: Classes, p: seq<Atom>, s: string, i: nat)
    requires i <= |s| && AllOptional(p)
    ensures Backtrack(k, p, s, i).Some?
    decreases Size(p)
  {
    if p != [] {
      assert p[0] in p;
      assert AllOptional(p[1..]) by {
        forall a | a in p[1..] ensures a.Opt? { assert a in p; }
      }
      AllOptionalMatches(k, p[1..], s, i);
    }
  }

  /** `rest` cannot match at a character of `c` when its head excludes `c`. */
  lemma ExcludedHeadFails(k: Classes, c: Class, rest: seq<Atom>, s: string, j: nat)
    requires ExcludesHead(k, c, rest) && j < |s| && Has(k, c, s[j])
    ensures Backtrack(k, rest, s, j).None?
  {
    match rest[0]
    case Lit(w) =>
      if j + |w| <= |s| {
        assert s[j..j + |w|][0] == s[j];
      }
    case One(d) =>
    case Plus(d) =>
      assert !Has(k, d, s[j]);
  }

  lemma {:induction false} TryLongestNone(k: Classes, rest: seq<Atom>, s: string, i: nat, m: nat)
    requires i + m <= |s|
    requires forall j :: i < j <= i + m ==> Backtrack(k, rest, s, j).None?
    ensures TryLongest(k, rest, s, i, m).None?
    decreases m
  {
    if m > 0 {
      TryLongestNone(k, rest, s, i, m - 1);
    }
  }

  /** Under the no-backtracking condition, Python's engine keeps the whole run. */
  lemma TryLongestKeepsWholeRun(k: Classes, c: Class, rest: seq<Atom>, s: string, i: nat)
    requires i <= |s| && Run(k, c, s, i) > 0
    requires AllOptional(rest) || ExcludesHead(k, c, rest)
    ensures TryLongest(k, rest, s, i, Run(k, c, s, i)) == Backtrack(k, rest, s, i + Run(k, c, s, i))
  {
    var n := Run(k, c, s, i);
    RunSpan(k, c, s, i);
    if AllOptional(rest) {
      AllOptionalMatches(k, rest, s, i + n);
    } else if Backtrack(k, rest, s, i + n).None? {
      forall j | i < j < i + n ensures Backtrack(k, rest, s, j).None? {
        ExcludedHeadFails(k, c, rest, s, j);
      }
      TryLongestNone(k, rest, s, i, n - 1);
    }
  }

  /** On a deterministic pattern the scanner finds exactly the match Python finds. */
  lemma {:induction false} GreedyIsBacktracking(k: Classes, p: seq<Atom>, s: string, i: nat)
    requires i <= |s| && Deterministic(k, p)
    ensures Greedy(k, p, s, i) == Backtrack(k, p, s, i)
    decreases Size(p)
  {
    if p != [] {
      match p[0]
      case Lit(w) =>
        if LitAt(s, i, w) {
          GreedyIsBacktracking(k, p[1..], s, i + |w|);
        }
      case One(c) =>
        if i < |s| && Has(k, c, s[i]) {
          GreedyIsBacktracking(k, p[1..], s, i + 1);
        }
      case Plus(c) =>
        var n := Run(k, c, s, i);
        if n > 0 {
          GreedyIsBacktracking(k, p[1..], s, i + n);
          TryLongestKeepsWholeRun(k, c, p[1..], s, i);
        }
      case Opt(q) =>
        assert p[1..] == [] && q + p[1..] == q;
        GreedyIsBacktracking(k, q, s, i);
    }
  }
}
