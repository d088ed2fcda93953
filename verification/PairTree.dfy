/**
 * Pairing trees over an arbitrary combining function `f`: the top-down tree of
 * section 2.1 of RFC 6962 and the bottom-up levels of internal/merkle/tree.go,
 * and the proof that they agree.  Merkle.dfy instantiates `f` with the
 * interior-node hash.
 */
module PairTree {
  import opened Common

  function Pow2(e: nat): (p: nat)
    ensures p >= 1
  {
    if e == 0 then 1 else 2 * Pow2(e - 1)
  }

  /** The smallest e with n <= 2^e. */
  function CeilLog2(n: nat): nat {
    if n <= 1 then 0 else 1 + CeilLog2((n + 1) / 2)
  }

  lemma {:induction false} CeilLog2Bounds(n: nat)
    ensures n <= Pow2(CeilLog2(n))
    ensures n >= 2 ==> Pow2(CeilLog2(n) - 1) < n
  {
    if n >= 2 {
      CeilLog2Bounds((n + 1) / 2);
    }
  }

  /** The largest power of two smaller than n; see SplitPointIsPow2. */
  function SplitPoint(n: nat): (k: nat)
    requires n >= 2
    ensures k < n <= 2 * k
  {
    if n == 2 then 1 else 2 * SplitPoint((n + 1) / 2)
  }

  lemma {:induction false} SplitPointIsPow2(n: nat)
    requires n >= 2
    ensures SplitPoint(n) == Pow2(CeilLog2(n) - 1)
  {
    if n >= 3 {
      SplitPointIsPow2((n + 1) / 2);
    }
  }

  // ------------------------------------------------------------ top down

  function Fold<T>(f: (T, T) -> T, xs: seq<T>): T
    requires |xs| >= 1
    decreases |xs|
  {
    if |xs| == 1 then xs[0]
    else
      var k := SplitPoint(|xs|);
      f(Fold(f, xs[..k]), Fold(f, xs[k..]))
  }

  /** One step of an authentication path; isLeft says the sibling is on the left. */
  datatype Step<T> = Step(hash: T, isLeft: bool)

  /** The audit path of section 2.1.1 of RFC 6962, each node with its side. */
  function Path<T>(f: (T, T) -> T, xs: seq<T>, m: nat): seq<Step<T>>
    requires m < |xs|
    decreases |xs|
  {
    if |xs| == 1 then []
    else
      var k := SplitPoint(|xs|);
      if m < k then Path(f, xs[..k], m) + [Step(Fold(f, xs[k..]), false)]
      else Path(f, xs[k..], m - k) + [Step(Fold(f, xs[..k]), true)]
  }

  /** Where a walk from `x` along `path` ends. */
  function Climb<T>(f: (T, T) -> T, x: T, path: seq<Step<T>>): T {
    if path == [] then x
    else
      var last := path[|path| - 1];
      var below := Climb(f, x, path[..|path| - 1]);
      if last.isLeft then f(last.hash, below) else f(below, last.hash)
  }

  lemma {:induction false} LastStep<T>(f: (T, T) -> T, x: T, path: seq<Step<T>>, last: Step<T>)
    ensures Climb(f, x, path + [last]) ==
            if last.isLeft then f(last.hash, Climb(f, x, path)) else f(Climb(f, x, path), last.hash)
  {
    assert (path + [last])[..|path|] == path;
  }

  /** a and b are the two parts of the RFC split of xs. */
  predicate Parts<T(==)>(xs: seq<T>, a: seq<T>, b: seq<T>) {
    |xs| >= 2 && a == xs[..SplitPoint(|xs|)] && b == xs[SplitPoint(|xs|)..]
  }

  lemma {:induction false} FoldSplit<T>(f: (T, T) -> T, xs: seq<T>, a: seq<T>, b: seq<T>)
    requires Parts(xs, a, b)
    ensures Fold(f, xs) == f(Fold(f, a), Fold(f, b))
  {
  }

  lemma {:induction false} PathSplitLeft<T>(f: (T, T) -> T, xs: seq<T>, a: seq<T>, b: seq<T>, m: nat)
    requires Parts(xs, a, b) && m < |a|
    ensures Path(f, xs, m) == Path(f, a, m) + [Step(Fold(f, b), false)]
  {
  }

  lemma {:induction false} PathSplitRight<T>(f: (T, T) -> T, xs: seq<T>, a: seq<T>, b: seq<T>, m: nat)
    requires Parts(xs, a, b) && |a| <= m < |xs|
    ensures Path(f, xs, m) == Path(f, b, m - |a|) + [Step(Fold(f, a), true)]
  {
  }

  lemma {:induction false} PathLeadsToRoot<T>(f: (T, T) -> T, xs: seq<T>, m: nat)
    requires m < |xs|
    ensures Climb(f, xs[m], Path(f, xs, m)) == Fold(f, xs)
    decreases |xs|
  {
    if |xs| >= 2 {
      var k := SplitPoint(|xs|);
      if m < k {
        PathLeadsToRoot(f, xs[..k], m);
        LastStep(f, xs[m], Path(f, xs[..k], m), Step(Fold(f, xs[k..]), false));
      } else {
        PathLeadsToRoot(f, xs[k..], m - k);
        LastStep(f, xs[m], Path(f, xs[k..], m - k), Step(Fold(f, xs[..k]), true));
      }
    }
  }

  // ----------------------------------------------------------- bottom up

  /** One round of pairing: neighbours are combined, a lone last node moves up unchanged. */
  function NextLevel<T>(f: (T, T) -> T, xs: seq<T>): (next: seq<T>)
    ensures 2 * |next| - 1 <= |xs| <= 2 * |next|
  {
    if |xs| < 2 then xs
    else [f(xs[0], xs[1])] + NextLevel(f, xs[2..])
  }

  /** Pairing distributes over a cut at an even index. */
  lemma {:induction false} NextLevelSplit<T>(f: (T, T) -> T, xs: seq<T>, ys: seq<T>, h: nat)
    requires |xs| == 2 * h
    ensures NextLevel(f, xs + ys) == NextLevel(f, xs) + NextLevel(f, ys)
  {
    if h == 0 {
      assert xs + ys == ys;
    } else {
      var all, rest := xs + ys, xs[2..];
      assert all[2..] == rest + ys;
      NextLevelSplit(f, rest, ys, h - 1);
      Assoc([f(xs[0], xs[1])], NextLevel(f, rest), NextLevel(f, ys));
    }
  }

  /** The parts before and after an even index, one level up. */
  lemma {:induction false} NextLevelParts<T>(f: (T, T) -> T, xs: seq<T>, h: nat)
    requires 2 * h <= |xs|
    ensures var next := NextLevel(f, xs);
            && h <= |next|
            && next[..h] == NextLevel(f, xs[..2 * h])
            && next[h..] == NextLevel(f, xs[2 * h..])
  {
    assert xs == xs[..2 * h] + xs[2 * h..];
    NextLevelSplit(f, xs[..2 * h], xs[2 * h..], h);
    Cut(NextLevel(f, xs[..2 * h]), NextLevel(f, xs[2 * h..]));
  }

  /** The two parts of the RFC split pair up separately, into the two parts of the next level. */
  lemma {:induction false} PartsOneUp<T>(f: (T, T) -> T, xs: seq<T>, next: seq<T>)
    returns (a: seq<T>, b: seq<T>, na: seq<T>, nb: seq<T>)
    requires |xs| >= 3 && next == NextLevel(f, xs)
    ensures Parts(xs, a, b) && Parts(next, na, nb)
    ensures na == NextLevel(f, a) && nb == NextLevel(f, b)
    ensures |a| == 2 * |na| && |xs| == |a| + |b|
  {
    var h := SplitPoint(|next|);
    assert SplitPoint(|xs|) == 2 * h;
    a, b, na, nb := xs[..2 * h], xs[2 * h..], next[..h], next[h..];
    NextLevelParts(f, xs, h);
  }

  /** Pairing once does not change the fold. */
  lemma {:induction false} PairingKeepsFold<T>(f: (T, T) -> T, xs: seq<T>)
    requires |xs| >= 1
    ensures Fold(f, NextLevel(f, xs)) == Fold(f, xs)
    decreases |xs|
  {
    if |xs| == 2 {
      assert NextLevel(f, xs) == [f(xs[0], xs[1])];
    } else if |xs| >= 3 {
      var next := NextLevel(f, xs);
      var a, b, na, nb := PartsOneUp(f, xs, next);
      PairingKeepsFold(f, a);
      PairingKeepsFold(f, b);
      FoldSplit(f, xs, a, b);
      FoldSplit(f, next, na, nb);
    }
  }

  /** The sibling of node m on its level, if it has one; j is m's parent on the next level. */
  function Sibling<T>(xs: seq<T>, m: nat, j: nat): seq<Step<T>>
    requires m < |xs| && 2 * j <= m <= 2 * j + 1
  {
    if m == 2 * j + 1 then [Step(xs[m - 1], true)]
    else if m + 1 < |xs| then [Step(xs[m + 1], false)]
    else []
  }

  /** The audit path of m is its sibling followed by the path of its parent j, one level up. */
  lemma {:induction false} PathStep<T>(f: (T, T) -> T, xs: seq<T>, m: nat, j: nat)
    requires |xs| >= 2 && m < |xs| && 2 * j <= m <= 2 * j + 1
    ensures Path(f, xs, m) == Sibling(xs, m, j) + Path(f, NextLevel(f, xs), j)
    decreases |xs|
  {
    if |xs| == 2 {
      assert NextLevel(f, xs) == [f(xs[0], xs[1])];
      assert Path(f, xs, m) == Sibling(xs, m, j);
    } else {
      var next := NextLevel(f, xs);
      var a, b, na, nb := PartsOneUp(f, xs, next);
      if m < |a| {
        PathStep(f, a, m, j);
        PairingKeepsFold(f, b);
        PathSplitLeft(f, xs, a, b, m);
        PathSplitLeft(f, next, na, nb, j);
        Assoc(Sibling(a, m, j), Path(f, na, j), [Step(Fold(f, b), false)]);
      } else {
        PathStepRight(f, xs, a, b, m, j);
      }
    }
  }

  lemma {:induction false} SiblingInRight<T>(xs: seq<T>, a: seq<T>, b: seq<T>, m: nat, j: nat, h: nat)
    requires |a| == 2 * h && |a| <= m < |xs| && b == xs[|a|..] && 2 * j <= m <= 2 * j + 1
    ensures h <= j && Sibling(xs, m, j) == Sibling(b, m - |a|, j - h)
  {
  }

  lemma {:induction false} PathStepRight<T>(f: (T, T) -> T, xs: seq<T>, a: seq<T>, b: seq<T>, m: nat, j: nat)
    requires |xs| >= 3 && Parts(xs, a, b) && |a| <= m < |xs| && 2 * j <= m <= 2 * j + 1
    ensures Path(f, xs, m) == Sibling(xs, m, j) + Path(f, NextLevel(f, xs), j)
    decreases |xs|, 0
  {
    var next := NextLevel(f, xs);
    var a', b', na, nb := PartsOneUp(f, xs, next);
    PairingKeepsFold(f, a);
    PathSplitRight(f, xs, a, b, m);
    PathSplitRight(f, next, na, nb, j);
    if |b| >= 2 {
      PathStep(f, b, m - |a|, j - |na|);
      SiblingInRight(xs, a, b, m, j, |na|);
      Assoc(Sibling(b, m - |a|, j - |na|), Path(f, nb, j - |na|), [Step(Fold(f, a), true)]);
    }
  }

  /** All levels, leaves first. */
  function Levels<T>(f: (T, T) -> T, xs: seq<T>): (levels: seq<seq<T>>)
    requires |xs| >= 1
    ensures |levels| >= 1 && levels[0] == xs
    decreases |xs|
  {
    if |xs| == 1 then [xs] else [xs] + Levels(f, NextLevel(f, xs))
  }

  lemma {:induction false} DoublePow(i: int, k: nat)
    requires k >= 1
    ensures i * Pow2(k) == 2 * (i * Pow2(k - 1))
  {
  }

  /** ceil(n / 2^k), by halving. */
  function LevelSize(n: nat, k: nat): nat {
    if k == 0 then n else LevelSize((n + 1) / 2, k - 1)
  }

  lemma {:induction false} LevelSizeIsCeil(n: nat, k: nat)
    ensures (LevelSize(n, k) - 1) * Pow2(k) < n <= LevelSize(n, k) * Pow2(k)
  {
    if k > 0 {
      var c: int := LevelSize(n, k);
      LevelSizeIsCeil((n + 1) / 2, k - 1);
      DoublePow(c - 1, k);
      DoublePow(c, k);
    }
  }

  /** Number and size of the levels. */
  lemma {:induction false} LevelShape<T>(f: (T, T) -> T, xs: seq<T>)
    requires |xs| >= 1
    ensures var levels := Levels(f, xs);
            && |levels| == CeilLog2(|xs|) + 1
            && forall k :: 0 <= k < |levels| ==> |levels[k]| == LevelSize(|xs|, k)
    decreases |xs|
  {
    if |xs| >= 2 {
      LevelShape(f, NextLevel(f, xs));
      var levels, upper := Levels(f, xs), Levels(f, NextLevel(f, xs));
      forall k | 0 <= k < |levels| ensures |levels[k]| == LevelSize(|xs|, k) {
        if k > 0 { assert levels[k] == upper[k - 1]; }
      }
    }
  }

  lemma {:induction false} TopLevel<T>(f: (T, T) -> T, xs: seq<T>)
    requires |xs| >= 1
    ensures var levels := Levels(f, xs); |levels[|levels| - 1]| == 1
    decreases |xs|
  {
    if |xs| >= 2 {
      TopLevel(f, NextLevel(f, xs));
    }
  }

  lemma {:induction false} ConsecutiveLevels<T>(f: (T, T) -> T, xs: seq<T>, k: nat)
    requires |xs| >= 1 && k + 1 < |Levels(f, xs)|
    ensures |Levels(f, xs)[k]| >= 2
    ensures Levels(f, xs)[k + 1] == NextLevel(f, Levels(f, xs)[k])
    decreases k
  {
    if k == 0 {
    } else {
      ConsecutiveLevels(f, NextLevel(f, xs), k - 1);
    }
  }

  function Min(a: int, b: int): int { if a <= b then a else b }

  /** Cutting a range out of a level, one level up. */
  lemma {:induction false} NextLevelRange<T>(f: (T, T) -> T, xs: seq<T>, lo: nat, up: nat)
    requires 2 * lo <= |xs| && lo <= up
    ensures lo <= Min(up, |NextLevel(f, xs)|)
    ensures NextLevel(f, xs)[lo..Min(up, |NextLevel(f, xs)|)] == NextLevel(f, xs[2 * lo..Min(2 * up, |xs|)])
  {
    var pre, next := xs, NextLevel(f, xs);
    if 2 * up <= |xs| {
      NextLevelParts(f, xs, up);
      pre := xs[..2 * up];
    } else {
      assert xs[..|xs|] == xs && next[..|next|] == next;
    }
    NextLevelParts(f, pre, lo);
  }

  /** The fold of a range of the next level is that of the range below it. */
  lemma {:induction false} RangeUp<T>(f: (T, T) -> T, xs: seq<T>, next: seq<T>, lo: nat, up: nat)
    requires |xs| >= 2 && next == NextLevel(f, xs) && lo < Min(up, |next|)
    ensures 2 * lo < Min(2 * up, |xs|)
    ensures Fold(f, next[lo..Min(up, |next|)]) == Fold(f, xs[2 * lo..Min(2 * up, |xs|)])
  {
    NextLevelRange(f, xs, lo, up);
    PairingKeepsFold(f, xs[2 * lo..Min(2 * up, |xs|)]);
  }

  /** i * 2^k, by doubling. */
  function Doubled(i: nat, k: nat): nat {
    if k == 0 then i else 2 * Doubled(i, k - 1)
  }

  lemma {:induction false} DoubledIsTimes(i: nat, k: nat)
    ensures Doubled(i, k) == i * Pow2(k)
  {
    if k > 0 {
      DoubledIsTimes(i, k - 1);
      DoublePow(i, k);
    }
  }

  lemma {:induction false} NodeCovers<T>(f: (T, T) -> T, xs: seq<T>, k: nat, i: nat)
    requires |xs| >= 1 && k < |Levels(f, xs)| && i < |Levels(f, xs)[k]|
    ensures Doubled(i, k) < Min(Doubled(i + 1, k), |xs|)
    ensures Levels(f, xs)[k][i] == Fold(f, xs[Doubled(i, k)..Min(Doubled(i + 1, k), |xs|)])
    decreases k
  {
    if k == 0 {
      assert xs[i..i + 1] == [xs[i]];
    } else {
      var next := NextLevel(f, xs);
      NodeCovers(f, next, k - 1, i);
      RangeUp(f, xs, next, Doubled(i, k - 1), Doubled(i + 1, k - 1));
    }
  }

  /** Node i of level k is the fold of xs[i * 2^k .. min((i + 1) * 2^k, n)]. */
  lemma {:induction false} NodeCoversRange<T>(f: (T, T) -> T, xs: seq<T>, k: nat, i: nat)
    requires |xs| >= 1 && k < |Levels(f, xs)| && i < |Levels(f, xs)[k]|
    ensures i * Pow2(k) < Min((i + 1) * Pow2(k), |xs|)
    ensures Levels(f, xs)[k][i] == Fold(f, xs[i * Pow2(k)..Min((i + 1) * Pow2(k), |xs|)])
  {
    NodeCovers(f, xs, k, i);
    DoubledIsTimes(i, k);
    DoubledIsTimes(i + 1, k);
  }

  /** A path has at most ceil(log2 n) nodes. */
  lemma {:induction false} PathLength<T>(f: (T, T) -> T, xs: seq<T>, m: nat)
    requires m < |xs|
    ensures |Path(f, xs, m)| <= CeilLog2(|xs|)
    decreases |xs|
  {
    if |xs| >= 2 {
      var j, next := m / 2, NextLevel(f, xs);
      PathStep(f, xs, m, j);
      PathLength(f, next, j);
      assert |next| == (|xs| + 1) / 2;
    }
  }
}
