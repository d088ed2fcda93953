/**
 * What an accepted proof and a published root commit to.  Each statement reads
 * "the expected thing holds, or here are two different inputs with the same
 * hash"; the inputs are computed, not merely claimed to exist.
 */
module Soundness {
  import opened Common
  import opened PairTree
  import opened Merkle

  ghost predicate IsCollision(H: Hash, x: Bytes, y: Bytes) {
    x != y && H(x) == H(y)
  }

  /** The bytes hashed last when the tree hash of `data` is computed. */
  function RootInput(H: Hash, data: seq<Bytes>): Bytes {
    if |data| == 0 then []
    else if |data| == 1 then [0x00] + data[0]
    else
      var k := SplitPoint(|data|);
      [0x01] + RfcTreeHash(H, data[..k]) + RfcTreeHash(H, data[k..])
  }

  /** The bytes hashed last when a verifier walks from the leaf of `d` along `proof`. */
  function WalkInput(H: Hash, d: Bytes, proof: seq<ProofNode>): Bytes
    decreases |proof|, 0
  {
    if proof == [] then [0x00] + d
    else
      var last := proof[|proof| - 1];
      var below := Walk(H, d, proof[..|proof| - 1]);
      if last.isLeft then [0x01] + last.hash + below else [0x01] + below + last.hash
  }

  /** Where that walk ends; always 32 bytes. */
  function Walk(H: Hash, d: Bytes, proof: seq<ProofNode>): Digest
    decreases |proof|, 1
  {
    H(WalkInput(H, d, proof))
  }

  lemma {:induction false} WalkIsClimb(H: Hash, d: Bytes, proof: seq<ProofNode>)
    ensures Walk(H, d, proof) == Climb(Interior(H), HashLeaf(H, d), proof)
    decreases |proof|
  {
    if proof != [] {
      WalkIsClimb(H, d, proof[..|proof| - 1]);
    }
  }

  /** 0x01 || a || b determines a and b once one of the two lengths is fixed on both sides. */
  lemma {:induction false} InteriorInputSplits(a: Bytes, b: Bytes, c: Bytes, d: Bytes)
    requires [0x01] + a + b == [0x01] + c + d
    requires |a| == |c| || |b| == |d|
    ensures a == c && b == d
  {
    var s, t := [0x01] + a + b, [0x01] + c + d;
    assert |a| == |c|;
    assert s[1..1 + |a|] == a && t[1..1 + |c|] == c;
    assert s[1 + |a|..] == b && t[1 + |c|..] == d;
  }

  // ------------------------------------------------------ inclusion proofs

  /** The explanation of an accepted proof. */
  datatype Evidence = At(index: nat) | Collision(x: Bytes, y: Bytes)

  function Explain(H: Hash, d: Bytes, data: seq<Bytes>, proof: seq<ProofNode>): Evidence
    decreases |data|
  {
    if WalkInput(H, d, proof) != RootInput(H, data) || |data| == 0 then
      Collision(WalkInput(H, d, proof), RootInput(H, data))
    else if |data| == 1 || proof == [] then At(0)
    else
      var k, below := SplitPoint(|data|), proof[..|proof| - 1];
      if proof[|proof| - 1].isLeft then
        match Explain(H, d, data[k..], below)
        case At(i) => At(k + i)
        case Collision(x, y) => Collision(x, y)
      else Explain(H, d, data[..k], below)
  }

  /** The evidence is good: the claimed position and path, or a genuine collision. */
  ghost predicate Explains(H: Hash, d: Bytes, data: seq<Bytes>, proof: seq<ProofNode>, e: Evidence) {
    match e
    case At(i) => i < |data| && data[i] == d && proof == AuditPath(H, LeafHashes(H, data), i)
    case Collision(x, y) => IsCollision(H, x, y)
  }

  /** The path of an index in one part, extended by the root of the other part. */
  lemma {:induction false} PathInPart(H: Hash, data: seq<Bytes>, a: seq<Bytes>, b: seq<Bytes>, i: nat)
    requires Parts(data, a, b) && i < |data|
    ensures i < |a| ==> AuditPath(H, LeafHashes(H, data), i) ==
                        AuditPath(H, LeafHashes(H, a), i) + [Step(RfcTreeHash(H, b), false)]
    ensures i >= |a| ==> AuditPath(H, LeafHashes(H, data), i) ==
                         AuditPath(H, LeafHashes(H, b), i - |a|) + [Step(RfcTreeHash(H, a), true)]
  {
    var hs, ha, hb := LeafHashes(H, data), LeafHashes(H, a), LeafHashes(H, b);
    assert ha == hs[..|a|] && hb == hs[|a|..];
    FoldIsRfc(H, a);
    FoldIsRfc(H, b);
    if i < |a| {
      PathSplitLeft(Interior(H), hs, ha, hb, i);
    } else {
      PathSplitRight(Interior(H), hs, ha, hb, i);
    }
  }

  lemma {:induction false} WalkExplained(H: Hash, d: Bytes, data: seq<Bytes>, proof: seq<ProofNode>)
    requires Walk(H, d, proof) == RfcTreeHash(H, data)
    ensures Explains(H, d, data, proof, Explain(H, d, data, proof))
    decreases |data|
  {
    var mine, theirs := WalkInput(H, d, proof), RootInput(H, data);
    assert H(theirs) == RfcTreeHash(H, data);
    if mine == theirs {
      if |data| == 0 {
        assert false;
      } else if |data| == 1 {
        assert mine[0] == 0x00;
        assert proof == [];
        assert mine[1..] == d && theirs[1..] == data[0];
      } else {
        WalkExplainedInside(H, d, data, proof);
      }
    }
  }

  lemma {:induction false} WalkExplainedInside(H: Hash, d: Bytes, data: seq<Bytes>, proof: seq<ProofNode>)
    requires |data| >= 2 && WalkInput(H, d, proof) == RootInput(H, data)
    ensures Explains(H, d, data, proof, Explain(H, d, data, proof))
    decreases |data|, 0
  {
    var k := SplitPoint(|data|);
    var a, b := data[..k], data[k..];
    assert WalkInput(H, d, proof)[0] == 0x01;
    assert proof != [];
    var last, rest := proof[|proof| - 1], proof[..|proof| - 1];
    assert proof == rest + [last];
    if last.isLeft {
      InteriorInputSplits(last.hash, Walk(H, d, rest), RfcTreeHash(H, a), RfcTreeHash(H, b));
      WalkExplained(H, d, b, rest);
      ExplainsRight(H, d, data, a, b, rest, Explain(H, d, b, rest));
    } else {
      InteriorInputSplits(Walk(H, d, rest), last.hash, RfcTreeHash(H, a), RfcTreeHash(H, b));
      WalkExplained(H, d, a, rest);
      ExplainsLeft(H, d, data, a, b, rest, Explain(H, d, a, rest));
    }
  }

  lemma {:induction false} ExplainsRight(H: Hash, d: Bytes, data: seq<Bytes>, a: seq<Bytes>, b: seq<Bytes>,
                                         rest: seq<ProofNode>, e: Evidence)
    requires Parts(data, a, b) && Explains(H, d, b, rest, e)
    ensures Explains(H, d, data, rest + [Step(RfcTreeHash(H, a), true)],
                     if e.At? then At(|a| + e.index) else e)
  {
    if e.At? {
      PathInPart(H, data, a, b, |a| + e.index);
    }
  }

  lemma {:induction false} ExplainsLeft(H: Hash, d: Bytes, data: seq<Bytes>, a: seq<Bytes>, b: seq<Bytes>,
                                        rest: seq<ProofNode>, e: Evidence)
    requires Parts(data, a, b) && Explains(H, d, a, rest, e)
    ensures Explains(H, d, data, rest + [Step(RfcTreeHash(H, b), false)], e)
  {
    if e.At? {
      PathInPart(H, data, a, b, e.index);
    }
  }

  /**
   * Soundness.  If the verifier accepts any proof for the leaf of d against the
   * root built over the leaves of data, then d is data[i] and the proof is the
   * one GenerateProof gives for i, or Explain returns a collision of H.
   */
  lemma {:induction false} ProofSound(H: Hash, d: Bytes, data: seq<Bytes>, proof: seq<ProofNode>)
    requires Climb(Interior(H), HashLeaf(H, d), proof) == TreeHash(H, LeafHashes(H, data))
    ensures Explains(H, d, data, proof, Explain(H, d, data, proof))
  {
    WalkIsClimb(H, d, proof);
    TreeHashIsRfc(H, data);
    WalkExplained(H, d, data, proof);
  }

  // ------------------------------------------------------------ commitment

  /** The place where two different lists part, followed down the two trees. */
  function Divergence(H: Hash, x: seq<Bytes>, y: seq<Bytes>): (Bytes, Bytes)
    decreases |x|
  {
    if RootInput(H, x) != RootInput(H, y) || |x| < 2 || |y| < 2 then (RootInput(H, x), RootInput(H, y))
    else
      var j, k := SplitPoint(|x|), SplitPoint(|y|);
      if x[..j] != y[..k] then Divergence(H, x[..j], y[..k]) else Divergence(H, x[j..], y[k..])
  }

  /** The root commits to the whole ordered list, or Divergence returns a collision of H. */
  lemma {:induction false} RootCommits(H: Hash, x: seq<Bytes>, y: seq<Bytes>)
    requires RfcTreeHash(H, x) == RfcTreeHash(H, y)
    ensures x == y || IsCollision(H, Divergence(H, x, y).0, Divergence(H, x, y).1)
    decreases |x|
  {
    var p, q := RootInput(H, x), RootInput(H, y);
    assert H(p) == RfcTreeHash(H, x) && H(q) == RfcTreeHash(H, y);
    if p == q && |x| >= 2 && |y| >= 2 {
      var j, k := SplitPoint(|x|), SplitPoint(|y|);
      var xa, xb, ya, yb := x[..j], x[j..], y[..k], y[k..];
      InteriorInputSplits(RfcTreeHash(H, xa), RfcTreeHash(H, xb), RfcTreeHash(H, ya), RfcTreeHash(H, yb));
      if xa != ya {
        RootCommits(H, xa, ya);
      } else if xb != yb {
        RootCommits(H, xb, yb);
      } else {
        assert x == xa + xb;
        assert y == ya + yb;
      }
    } else if p == q {
      SmallRootCommits(H, x, y);
    }
  }

  lemma {:induction false} SmallRootCommits(H: Hash, x: seq<Bytes>, y: seq<Bytes>)
    requires RootInput(H, x) == RootInput(H, y) && (|x| < 2 || |y| < 2)
    ensures x == y
  {
    var p, q := RootInput(H, x), RootInput(H, y);
    if |x| > 0 && |y| > 0 {
      assert p[0] == q[0];
      assert |x| == |y| == 1;
      assert p[1..] == x[0] && q[1..] == y[0];
    }
  }
}
