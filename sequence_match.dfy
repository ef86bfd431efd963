/**
 * The similarity ratio of Python's difflib.SequenceMatcher(None, a, b):
 * ratio = 2*M / (|a| + |b|), where M is the total size of the matching
 * blocks. The blocks come from find_longest_match applied recursively to the
 * pieces left and right of the longest match; the longest match is the
 * longest common substring, the earliest in a and then the earliest in b.
 * No junk is declared and the autojunk heuristic (only active when b has 200
 * or more characters) is not modelled.
 */
module SequenceMatch {

  /** a[i..i+size] == b[j..j+size]. */
  datatype Block = Block(i: nat, j: nat, size: nat)

  /** Length of the longest common prefix of a and b. */
  function CommonPrefix(a: string, b: string): (k: nat)
    ensures k <= |a| && k <= |b|
    ensures k < |a| && k < |b| ==> a[k] != b[k]
    ensures forall t :: 0 <= t < k ==> a[t] == b[t]
  {
    if a == [] || b == [] || a[0] != b[0] then 0 else 1 + CommonPrefix(a[1..], b[1..])
  }

  ghost predicate Fits(a: string, b: string, m: Block) {
    m.i + m.size <= |a| && m.j + m.size <= |b|
  }

  /** `(i, j)` comes strictly before `(i', j')` in the scan order of find_longest_match. */
  predicate Before(i: nat, j: nat, i': nat, j': nat) {
    i < i' || (i == i' && j < j')
  }

  /** blk lies within a and b, and a[blk.i..] and b[blk.j..] share exactly blk.size characters. */
  ghost predicate Exact(a: string, b: string, blk: Block) {
    Fits(a, b, blk) && (blk.size == 0 || CommonPrefix(a[blk.i..], b[blk.j..]) == blk.size)
  }

  /** No start position before (i, j) has a longer common prefix than size. */
  ghost predicate CoveredBefore(a: string, b: string, i: nat, j: nat, size: nat) {
    forall i': nat, j': nat :: Before(i', j', i, j) && i' < |a| && j' < |b| ==> CommonPrefix(a[i'..], b[j'..]) <= size
  }

  /** Every start position before blk's has a strictly shorter common prefix. */
  ghost predicate FirstOfItsSize(a: string, b: string, blk: Block) {
    forall i': nat, j': nat :: Before(i', j', blk.i, blk.j) && i' < |a| && j' < |b| ==> CommonPrefix(a[i'..], b[j'..]) < blk.size
  }

  /** Scans the start positions (i, j), (i, j+1), ..., (i, |b|-1), keeping the
      first strictly longer common prefix. */
  function ScanRow(a: string, b: string, i: nat, j: nat, best: Block): Block
    requires i < |a| && j <= |b|
    decreases |b| - j
  {
    if j == |b| then best
    else
      var k := CommonPrefix(a[i..], b[j..]);
      ScanRow(a, b, i, j + 1, if k > best.size then Block(i, j, k) else best)
  }

  /** Scans the rows i, i+1, ..., |a|-1. */
  function ScanFrom(a: string, b: string, i: nat, best: Block): Block
    requires i <= |a|
    decreases |a| - i
  {
    if i == |a| then best
    else ScanFrom(a, b, i + 1, ScanRow(a, b, i, 0, best))
  }

  /** find_longest_match over the whole of a and b. */
  function LongestMatch(a: string, b: string): Block
  {
    ScanFrom(a, b, 0, Block(0, 0, 0))
  }

  /** The scan invariant at position (i, j): best is an exact block, the
      first of its size, no earlier start position has a longer common
      prefix, and best itself starts before (i, j). */
  ghost predicate Scanned(a: string, b: string, i: nat, j: nat, best: Block) {
    && Exact(a, b, best) && FirstOfItsSize(a, b, best) && CoveredBefore(a, b, i, j, best.size)
    && (best.size == 0 || Before(best.i, best.j, i, j))
  }

  lemma {:induction false} ScanRowSpec(a: string, b: string, i: nat, j: nat, best: Block)
    requires i < |a| && j <= |b|
    requires Scanned(a, b, i, j, best)
    ensures Scanned(a, b, i + 1, 0, ScanRow(a, b, i, j, best))
    ensures ScanRow(a, b, i, j, best).size >= best.size
    decreases |b| - j
  {
    if j == |b| {
      forall i': nat, j': nat | Before(i', j', i + 1, 0) && i' < |a| && j' < |b|
        ensures CommonPrefix(a[i'..], b[j'..]) <= best.size
      {
        assert Before(i', j', i, j);
      }
    } else {
      var k := CommonPrefix(a[i..], b[j..]);
      var next := if k > best.size then Block(i, j, k) else best;
      forall i': nat, j': nat | Before(i', j', i, j + 1) && i' < |a| && j' < |b|
        ensures CommonPrefix(a[i'..], b[j'..]) <= next.size
      {
        if !Before(i', j', i, j) {
          assert i' == i && j' == j;
        }
      }
      if k > best.size {
        forall i': nat, j': nat | Before(i', j', next.i, next.j) && i' < |a| && j' < |b|
          ensures CommonPrefix(a[i'..], b[j'..]) < next.size
        {
          assert Before(i', j', i, j);
        }
      }
      ScanRowSpec(a, b, i, j + 1, next);
    }
  }

  lemma {:induction false} ScanFromSpec(a: string, b: string, i: nat, best: Block)
    requires i <= |a|
    requires Scanned(a, b, i, 0, best)
    ensures Scanned(a, b, |a|, 0, ScanFrom(a, b, i, best))
    decreases |a| - i
  {
    if i < |a| {
      ScanRowSpec(a, b, i, 0, best);
      ScanFromSpec(a, b, i + 1, ScanRow(a, b, i, 0, best));
    }
  }

  /** The longest match is a longest common block of a and b, and among the
      longest it is the first in scan order: earliest in a, then earliest in b. */
  lemma LongestMatchSpec(a: string, b: string)
    ensures var r := LongestMatch(a, b);
      && Exact(a, b, r) && FirstOfItsSize(a, b, r)
      && forall i': nat, j': nat :: i' < |a| && j' < |b| ==> CommonPrefix(a[i'..], b[j'..]) <= r.size
  {
    ScanFromSpec(a, b, 0, Block(0, 0, 0));
    var r := LongestMatch(a, b);
    forall i': nat, j': nat | i' < |a| && j' < |b|
      ensures CommonPrefix(a[i'..], b[j'..]) <= r.size
    {
      assert Before(i', j', |a|, 0);
    }
  }

  /** Total size of the matching blocks of a and b. */
  function MatchCount(a: string, b: string): (m: nat)
    ensures m <= |a| && m <= |b|
    decreases |a| + |b|
  {
    var blk := LongestMatch(a, b);
    LongestMatchSpec(a, b);
    if blk.size == 0 then 0
    else
      MatchCount(a[..blk.i], b[..blk.j]) + blk.size
        + MatchCount(a[blk.i + blk.size..], b[blk.j + blk.size..])
  }

  /** SequenceMatcher.ratio(): 1.0 for two empty strings, otherwise 2*M/(|a|+|b|). */
  function Ratio(a: string, b: string): (r: real)
    ensures 0.0 <= r <= 1.0
  {
    if |a| + |b| == 0 then 1.0
    else
      var m, n := (2 * MatchCount(a, b)) as real, (|a| + |b|) as real;
      FractionBounds(m, n);
      m / n
  }

  lemma FractionBounds(m: real, n: real)
    requires 0.0 <= m <= n && n > 0.0
    ensures 0.0 <= m / n <= 1.0
  {
    assert m / n * n == m;
  }

  lemma DivSelf(n: real)
    requires n > 0.0
    ensures n / n == 1.0
  {
  }

  lemma {:induction false} CommonPrefixSelf(a: string)
    ensures CommonPrefix(a, a) == |a|
  {
  }

  /** The longest match of a non-empty string with itself is the whole string. */
  lemma LongestMatchSelf(a: string)
    requires a != []
    ensures LongestMatch(a, a) == Block(0, 0, |a|)
  {
    var blk := LongestMatch(a, a);
    LongestMatchSpec(a, a);
    CommonPrefixSelf(a);
    assert a[0..] == a;
    assert CommonPrefix(a[0..], a[0..]) <= blk.size;
    assert !Before(0, 0, blk.i, blk.j);
  }

  lemma MatchCountEmpty()
    ensures MatchCount([], []) == 0
  {
    LongestMatchSpec([], []);
  }

  /** A string matches itself completely. */
  lemma MatchCountSelf(a: string)
    ensures MatchCount(a, a) == |a|
  {
    if a != [] {
      LongestMatchSelf(a);
      MatchCountEmpty();
      var e: string := [];
      assert a[..0] == e && a[|a|..] == e;
      calc {
        MatchCount(a, a);
        MatchCount(a[..0], a[..0]) + |a| + MatchCount(a[|a|..], a[|a|..]);
        MatchCount(e, e) + |a| + MatchCount(e, e);
      }
    }
  }

  /** A string is perfectly similar to itself. */
  lemma RatioSelf(a: string)
    ensures Ratio(a, a) == 1.0
  {
    if a != [] {
      MatchCountSelf(a);
      var m, n := (2 * MatchCount(a, a)) as real, (|a| + |a|) as real;
      assert Ratio(a, a) == m / n;
      assert m == n;
      DivSelf(n);
    }
  }

  /** No character of a occurs in b. */
  predicate Disjoint(a: string, b: string) {
    forall i, j :: 0 <= i < |a| && 0 <= j < |b| ==> a[i] != b[j]
  }

  lemma NoCommonPrefix(a: string, b: string, i: nat, j: nat)
    requires Disjoint(a, b) && i <= |a| && j <= |b|
    ensures CommonPrefix(a[i..], b[j..]) == 0
  {
    if i < |a| && j < |b| {
      assert a[i..][0] == a[i] && b[j..][0] == b[j];
    }
  }

  /** Strings with no character in common do not match at all: ratio 0. */
  lemma RatioDisjoint(a: string, b: string)
    requires |a| + |b| > 0 && Disjoint(a, b)
    ensures MatchCount(a, b) == 0 && Ratio(a, b) == 0.0
  {
    MatchCountDisjoint(a, b);
    RatioOfCount(a, b, 0);
  }

  lemma MatchCountDisjoint(a: string, b: string)
    requires Disjoint(a, b)
    ensures MatchCount(a, b) == 0
  {
    var blk := LongestMatch(a, b);
    assert Exact(a, b, blk) by { LongestMatchSpec(a, b); }
    NoCommonPrefix(a, b, blk.i, blk.j);
    assert blk.size == 0;
  }

  /** Scanning "ab" against "bacb": the first match of length one is a[0] == b[1]. */
  lemma LongestOfAb()
    ensures LongestMatch("ab", "bacb") == Block(0, 1, 1)
  {
    var row0 := ScanRow("ab", "bacb", 0, 0, Block(0, 0, 0));
    assert row0 == Block(0, 1, 1);
    assert ScanRow("ab", "bacb", 1, 0, row0) == Block(0, 1, 1);
  }

  /** Scanning "bacb" against "ab": the first match of length one is a[0] == b[1]. */
  lemma LongestOfBacb()
    ensures LongestMatch("bacb", "ab") == Block(0, 1, 1)
  {
    var row0 := ScanRow("bacb", "ab", 0, 0, Block(0, 0, 0));
    assert row0 == Block(0, 1, 1);
    var row1 := ScanRow("bacb", "ab", 1, 0, row0);
    assert row1 == Block(0, 1, 1);
    var row2 := ScanRow("bacb", "ab", 2, 0, row1);
    assert row2 == Block(0, 1, 1);
    assert ScanRow("bacb", "ab", 3, 0, row2) == Block(0, 1, 1);
  }

  /** "b" and "cb" share one character. */
  lemma MatchCountOfBCb()
    ensures MatchCount("b", "cb") == 1
  {
    LongestMatchSpec("b", "cb");
    assert "b"[0..] == "b" && "cb"[1..] == "b";
    assert CommonPrefix("b"[0..], "cb"[1..]) == 1;
  }

  lemma MatchCountOfAb()
    ensures MatchCount("ab", "bacb") == 2
  {
    LongestOfAb();
    assert "ab"[1..] == "b" && "bacb"[2..] == "cb";
    MatchCountOfBCb();
  }

  lemma MatchCountOfBacb()
    ensures MatchCount("bacb", "ab") == 1
  {
    LongestOfBacb();
  }

  /** Swapping the arguments keeps the ratio exactly when it keeps the match count. */
  lemma RatioSwap(a: string, b: string)
    requires |a| + |b| > 0
    ensures Ratio(a, b) == Ratio(b, a) <==> MatchCount(a, b) == MatchCount(b, a)
  {
    var n := (|a| + |b|) as real;
    var m, m' := MatchCount(a, b), MatchCount(b, a);
    RatioOfCount(a, b, m);
    RatioOfCount(b, a, m');
    if Ratio(a, b) == Ratio(b, a) {
      DivCancel((2 * m) as real, (2 * m') as real, n);
    }
  }

  lemma RatioOfCount(a: string, b: string, m: nat)
    requires |a| + |b| > 0 && MatchCount(a, b) == m
    ensures Ratio(a, b) == (2 * m) as real / (|a| + |b|) as real
  {
  }

  lemma DivCancel(m: real, m': real, n: real)
    requires n > 0.0 && m / n == m' / n
    ensures m == m'
  {
    assert m == (m / n) * n;
    assert m' == (m' / n) * n;
  }

  /** ratio is not symmetric: the tie-break on the longest match depends on
      which string is scanned first, so "ab" against "bacb" finds two matching
      characters and "bacb" against "ab" only one. */
  lemma RatioAsymmetric()
    ensures MatchCount("ab", "bacb") == 2 && MatchCount("bacb", "ab") == 1
    ensures Ratio("ab", "bacb") != Ratio("bacb", "ab")
  {
    MatchCountOfAb();
    MatchCountOfBacb();
    RatioSwap("ab", "bacb");
  }
}
