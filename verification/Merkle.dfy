/**
 * The Merkle tree of internal/merkle/tree.go over the tree hash and audit path
 * of section 2.1 of RFC 6962.
 *
 * SHA-256 is a parameter `H` whose results have 32 bytes.  Nothing else is
 * assumed of it: in particular not that it is injective.
 */
module Merkle {
  import opened Common
  import opened PairTree

  type Digest = d: Bytes | |d| == 32 witness seq(32, _ => 0)
  type Hash = Bytes -> Digest
  type ProofNode = Step<Bytes>

  function HashLeaf(H: Hash, data: Bytes): Digest {
    H([0x00] + data)
  }

  function HashInterior(H: Hash, left: Bytes, right: Bytes): Digest {
    H([0x01] + left + right)
  }

  function Interior(H: Hash): (Bytes, Bytes) -> Bytes {
    (left, right) => HashInterior(H, left, right)
  }

  function LeafHashes(H: Hash, data: seq<Bytes>): (hs: seq<Bytes>)
    ensures |hs| == |data|
    ensures forall i :: 0 <= i < |data| ==> hs[i] == HashLeaf(H, data[i])
  {
    seq(|data|, i requires 0 <= i < |data| => HashLeaf(H, data[i]))
  }

  /** The Merkle Tree Hash of section 2.1 of RFC 6962. */
  function RfcTreeHash(H: Hash, data: seq<Bytes>): Digest
    decreases |data|
  {
    if |data| == 0 then H([])
    else if |data| == 1 then HashLeaf(H, data[0])
    else
      var k := SplitPoint(|data|);
      HashInterior(H, RfcTreeHash(H, data[..k]), RfcTreeHash(H, data[k..]))
  }

  /** The same hash for entries that are leaf hashes already. */
  function TreeHash(H: Hash, hs: seq<Bytes>): Bytes {
    if hs == [] then H([]) else Fold(Interior(H), hs)
  }

  /** The audit path of section 2.1.1 of RFC 6962 for leaf m. */
  function AuditPath(H: Hash, hs: seq<Bytes>, m: nat): seq<ProofNode>
    requires m < |hs|
  {
    Path(Interior(H), hs, m)
  }

  lemma {:induction false} FoldIsRfc(H: Hash, data: seq<Bytes>)
    requires |data| >= 1
    ensures Fold(Interior(H), LeafHashes(H, data)) == RfcTreeHash(H, data)
    decreases |data|
  {
    if |data| >= 2 {
      var k, hs := SplitPoint(|data|), LeafHashes(H, data);
      var a, b := data[..k], data[k..];
      FoldIsRfc(H, a);
      FoldIsRfc(H, b);
      assert hs[..k] == LeafHashes(H, a);
      assert hs[k..] == LeafHashes(H, b);
      FoldSplit(Interior(H), hs, hs[..k], hs[k..]);
    }
  }

  /** Building over leaf hashes gives the RFC 6962 tree hash of the data. */
  lemma {:induction false} TreeHashIsRfc(H: Hash, data: seq<Bytes>)
    ensures TreeHash(H, LeafHashes(H, data)) == RfcTreeHash(H, data)
  {
    if data != [] {
      FoldIsRfc(H, data);
    }
  }

  // ------------------------------------------------------------- the code

  datatype Tree = Tree(leaves: seq<Bytes>, levels: seq<seq<Bytes>>, root: Bytes)

  /** What BuildTree leaves behind. */
  ghost predicate Built(H: Hash, t: Tree) {
    && t.root == TreeHash(H, t.leaves)
    && t.levels == if t.leaves == [] then [[H([])]] else Levels(Interior(H), t.leaves)
  }

  method PairUp(H: Hash, current: seq<Bytes>) returns (nextLevel: seq<Bytes>)
    ensures nextLevel == NextLevel(Interior(H), current)
  {
    nextLevel := [];
    ghost var rest := current;
    var i := 0;
    while i < |current|
      invariant i <= |current| ==> rest == current[i..]
      invariant i > |current| ==> rest == []
      invariant NextLevel(Interior(H), current) == nextLevel + NextLevel(Interior(H), rest)
    {
      ghost var done := nextLevel;
      if i + 1 < |current| {
        nextLevel := nextLevel + [HashInterior(H, current[i], current[i + 1])];
        assert rest[2..] == current[i + 2..];
        rest := rest[2..];
        Assoc(done, [HashInterior(H, current[i], current[i + 1])], NextLevel(Interior(H), rest));
      } else {
        nextLevel := nextLevel + [current[i]];
        assert rest == [current[i]];
        rest := [];
      }
      i := i + 2;
    }
  }

  /** For every list of leaf hashes, the root is the RFC 6962 tree hash. */
  method BuildTree(H: Hash, leafHashes: seq<Bytes>) returns (t: Tree)
    ensures t.leaves == leafHashes && Built(H, t)
    ensures t.root == TreeHash(H, leafHashes)
  {
    if |leafHashes| == 0 {
      return Tree([], [[H([])]], H([]));
    }
    var leaves := [];
    for i := 0 to |leafHashes|
      invariant leaves == leafHashes[..i]
    {
      leaves := leaves + [leafHashes[i]];
    }
    assert leaves == leafHashes;
    var levels := [leaves];
    var current := leaves;
    ghost var below: seq<seq<Bytes>> := [];
    while |current| > 1
      invariant |current| >= 1
      invariant levels == below + [current]
      invariant Levels(Interior(H), leafHashes) == below + Levels(Interior(H), current)
      invariant Fold(Interior(H), current) == Fold(Interior(H), leafHashes)
      decreases |current|
    {
      PairingKeepsFold(Interior(H), current);
      var nextLevel := PairUp(H, current);
      Assoc(below, [current], Levels(Interior(H), nextLevel));
      below := levels;
      levels := levels + [nextLevel];
      current := nextLevel;
    }
    t := Tree(leaves, levels, current[0]);
  }

  datatype ProofError = ErrIndexOutOfRange

  /** `proof` is the path of `leaf` up to level k, where the walk is at node m. */
  ghost predicate PathUpTo(H: Hash, t: Tree, leaf: nat, k: nat, m: int, proof: seq<ProofNode>)
    requires leaf < |t.leaves| && k < |t.levels|
  {
    0 <= m < |t.levels[k]| && AuditPath(H, t.leaves, leaf) == proof + AuditPath(H, t.levels[k], m)
  }

  /** One sibling more, one level up. */
  lemma {:induction false} ExtendProof(H: Hash, t: Tree, leaf: nat, k: nat, m: nat, proof: seq<ProofNode>)
    requires Built(H, t) && leaf < |t.leaves| && k + 1 < |t.levels| && PathUpTo(H, t, leaf, k, m, proof)
    ensures PathUpTo(H, t, leaf, k + 1, m / 2, proof + Sibling(t.levels[k], m, m / 2))
  {
    var level, next, j := t.levels[k], t.levels[k + 1], m / 2;
    ConsecutiveLevels(Interior(H), t.leaves, k);
    PathStep(Interior(H), level, m, j);
    Assoc(proof, Sibling(level, m, j), AuditPath(H, next, j));
  }

  method SiblingNode(level: seq<Bytes>, idx: nat) returns (node: seq<ProofNode>)
    requires idx < |level|
    ensures node == Sibling(level, idx, idx / 2)
  {
    var siblingIdx, isLeft;
    if idx % 2 == 0 {
      siblingIdx, isLeft := idx + 1, false;
    } else {
      siblingIdx, isLeft := idx - 1, true;
    }
    node := [];
    if siblingIdx < |level| {
      node := [Step(level[siblingIdx], isLeft)];
    }
  }

  /** In range, the generated proof is the audit path of section 2.1.1 of RFC 6962. */
  method GenerateProof(H: Hash, t: Tree, leafIndex: int) returns (r: Result<seq<ProofNode>, ProofError>)
    requires Built(H, t)
    ensures r == if 0 <= leafIndex < |t.leaves| then Ok(AuditPath(H, t.leaves, leafIndex))
                 else Err(ErrIndexOutOfRange)
  {
    if leafIndex < 0 || leafIndex >= |t.leaves| {
      return Err(ErrIndexOutOfRange);
    }
    var proof := [];
    var idx := leafIndex;
    TopLevel(Interior(H), t.leaves);
    for levelIdx := 0 to |t.levels| - 1
      invariant PathUpTo(H, t, leafIndex, levelIdx, idx, proof)
    {
      ExtendProof(H, t, leafIndex, levelIdx, idx, proof);
      var node := SiblingNode(t.levels[levelIdx], idx);
      proof := proof + node;
      idx := idx / 2;
    }
    assert AuditPath(H, t.leaves, leafIndex) == proof + [] == proof;
    return Ok(proof);
  }

  method VerifyProof(H: Hash, leafHash: Bytes, proof: seq<ProofNode>, expectedRoot: Bytes) returns (ok: bool)
    ensures ok <==> Climb(Interior(H), leafHash, proof) == expectedRoot
  {
    var current := leafHash;
    for n := 0 to |proof|
      invariant current == Climb(Interior(H), leafHash, proof[..n])
    {
      assert proof[..n + 1][..n] == proof[..n];
      if proof[n].isLeft {
        current := HashInterior(H, proof[n].hash, current);
      } else {
        current := HashInterior(H, current, proof[n].hash);
      }
    }
    assert proof[..|proof|] == proof;
    if |current| != |expectedRoot| {
      return false;
    }
    for i := 0 to |current|
      invariant current[..i] == expectedRoot[..i]
    {
      if current[i] != expectedRoot[i] {
        return false;
      }
    }
    return true;
  }

  /** A generated proof is at most ceil(log2 n) long and leads from its leaf to the root. */
  lemma {:induction false} ProofComplete(H: Hash, hs: seq<Bytes>, i: nat)
    requires i < |hs|
    ensures Climb(Interior(H), hs[i], AuditPath(H, hs, i)) == TreeHash(H, hs)
    ensures |AuditPath(H, hs, i)| <= CeilLog2(|hs|)
  {
    PathLeadsToRoot(Interior(H), hs, i);
    PathLength(Interior(H), hs, i);
  }
}
