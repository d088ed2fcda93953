/** RecordVerifier of internal/merkle/verifier.go over MemoryStore. */
module Verifier {
  import opened Common
  import opened PairTree
  import opened Merkle
  import opened Records
  import opened Store
  import opened Soundness

  datatype Verdict =
    | Valid
    | InvalidSignature
    | LeafHashFailed
    | ProofUnavailable
    | ProofRejected

  datatype FetchError = RecordNotFound | BatchNotFound | LeafUnavailable

  /**
   * The outcome for record `rec` of `batch`, when the store lists the batch's
   * records as `listing` and the verifier knows the key versions in `known`.
   */
  function Judge(env: Env, known: set<string>, rec: Record, batch: Batch, listing: seq<Record>): Verdict
    requires AllEncode(env, listing)
  {
    if batch.keyVersion !in known || !env.check(batch.keyVersion, batch.merkleRoot, batch.signature) then
      InvalidSignature
    else if env.leafJson(rec).None? then LeafHashFailed
    else if listing != [] && rec.leafIndex >= |listing| then ProofUnavailable
    else
      var proof := if listing == [] then [] else AuditPath(env.H, Leaves(env, listing), rec.leafIndex);
      if Climb(Interior(env.H), HashLeaf(env.H, env.leafJson(rec).value), proof) == batch.merkleRoot
      then Valid else ProofRejected
  }

  /** Leaf hashes of the listed records, or nothing if one does not encode. */
  method ListedLeaves(env: Env, listing: seq<Record>) returns (r: Option<seq<Bytes>>)
    ensures r == if AllEncode(env, listing) then Some(Leaves(env, listing)) else None
  {
    var leaves: seq<Bytes> := [];
    for i := 0 to |listing|
      invariant |leaves| == i && forall j :: 0 <= j < i ==> env.leafJson(listing[j]).Some?
      invariant forall j :: 0 <= j < i ==> leaves[j] == HashLeaf(env.H, env.leafJson(listing[j]).value)
    {
      if env.leafJson(listing[i]).None? {
        return None;
      }
      leaves := leaves + [HashLeaf(env.H, env.leafJson(listing[i]).value)];
    }
    assert AllEncode(env, listing) && leaves == Leaves(env, listing);
    return Some(leaves);
  }

  // ----------------------------------------------------- what a verdict means

  /** The path the verifier checks: that of the record's place in the listing, if anything is listed. */
  function PathIn(env: Env, rec: Record, listing: seq<Record>): seq<ProofNode>
    requires AllEncode(env, listing) && (listing == [] || rec.leafIndex < |listing|)
  {
    if listing == [] then [] else AuditPath(env.H, Leaves(env, listing), rec.leafIndex)
  }

  ghost predicate SignedByKnownKey(env: Env, known: set<string>, batch: Batch) {
    batch.keyVersion in known && env.check(batch.keyVersion, batch.merkleRoot, batch.signature)
  }

  /** The path can be made, and what it is made for encodes. */
  ghost predicate CanCheck(env: Env, rec: Record, listing: seq<Record>) {
    env.leafJson(rec).Some? && (listing == [] || rec.leafIndex < |listing|)
  }

  /**
   * The record is in the batch its root was made for: of any records with this
   * root, one has the same leaf data; or here are two inputs with the same hash.
   */
  ghost predicate IsVouchedFor(env: Env, rec: Record, batch: Batch, listing: seq<Record>)
    requires AllEncode(env, listing) && CanCheck(env, rec, listing)
  {
    forall rs :: AllEncode(env, rs) && batch.merkleRoot == RootOf(env, rs) ==>
      SameLeafOrCollision(env, rec, rs,
                          Explain(env.H, env.leafJson(rec).value, LeafData(env, rs), PathIn(env, rec, listing)))
  }

  ghost predicate SameLeafOrCollision(env: Env, rec: Record, rs: seq<Record>, e: Evidence) {
    match e
    case At(i) => i < |rs| && env.leafJson(rs[i]) == env.leafJson(rec)
    case Collision(x, y) => x != y && env.H(x) == env.H(y)
  }

  /** Where the walk from the record's leaf along the path ends. */
  ghost predicate WalkEndsAtRoot(env: Env, rec: Record, batch: Batch, listing: seq<Record>)
    requires AllEncode(env, listing) && CanCheck(env, rec, listing)
  {
    Walk(env.H, env.leafJson(rec).value, PathIn(env, rec, listing)) == batch.merkleRoot
  }

  /** Each verdict, in terms of the keys, the signature, the record and the listing. */
  ghost predicate Means(env: Env, known: set<string>, rec: Record, batch: Batch, listing: seq<Record>, v: Verdict)
    requires AllEncode(env, listing)
  {
    && (v == InvalidSignature <==> !SignedByKnownKey(env, known, batch))
    && (v == LeafHashFailed <==> SignedByKnownKey(env, known, batch) && env.leafJson(rec).None?)
    && (v == ProofUnavailable <==>
        SignedByKnownKey(env, known, batch) && env.leafJson(rec).Some? && !CanCheck(env, rec, listing))
    && (v == ProofRejected <==>
        SignedByKnownKey(env, known, batch) && CanCheck(env, rec, listing) &&
        !WalkEndsAtRoot(env, rec, batch, listing))
    && (v == Valid ==>
        SignedByKnownKey(env, known, batch) && CanCheck(env, rec, listing) &&
        IsVouchedFor(env, rec, batch, listing))
  }

  lemma {:induction false} AcceptedIsVouchedFor(env: Env, rec: Record, batch: Batch, listing: seq<Record>)
    requires AllEncode(env, listing) && CanCheck(env, rec, listing) && WalkEndsAtRoot(env, rec, batch, listing)
    ensures IsVouchedFor(env, rec, batch, listing)
  {
    var d, path := env.leafJson(rec).value, PathIn(env, rec, listing);
    WalkIsClimb(env.H, d, path);
    forall rs | AllEncode(env, rs) && batch.merkleRoot == RootOf(env, rs)
      ensures Explains(env.H, d, LeafData(env, rs), path, Explain(env.H, d, LeafData(env, rs), path))
    {
      ProofSound(env.H, d, LeafData(env, rs), path);
    }
  }

  lemma {:induction false} JudgeMeans(env: Env, known: set<string>, rec: Record, batch: Batch, listing: seq<Record>)
    requires AllEncode(env, listing)
    ensures Means(env, known, rec, batch, listing, Judge(env, known, rec, batch, listing))
  {
    if CanCheck(env, rec, listing) {
      WalkIsClimb(env.H, env.leafJson(rec).value, PathIn(env, rec, listing));
      if WalkEndsAtRoot(env, rec, batch, listing) {
        AcceptedIsVouchedFor(env, rec, batch, listing);
      }
    }
  }

  /**
   * A record put in the place of another, in a batch of one: it is rejected, or
   * its leaf and the genuine one are two inputs with the same hash.
   */
  lemma {:induction false} TamperedIsRejected(env: Env, known: set<string>, good: Record, bad: Record, batch: Batch)
    requires env.leafJson(good).Some? && env.leafJson(bad).Some? && env.leafJson(good) != env.leafJson(bad)
    requires batch.merkleRoot == RootOf(env, [good]) && bad.leafIndex == 0
    ensures Judge(env, known, bad, batch, [bad]) == Valid ==>
              var x, y := [0x00] + env.leafJson(bad).value, [0x00] + env.leafJson(good).value;
              x != y && env.H(x) == env.H(y)
  {
    JudgeMeans(env, known, bad, batch, [bad]);
    var d, g := env.leafJson(bad).value, env.leafJson(good).value;
    assert LeafData(env, [good]) == [g];
    assert PathIn(env, bad, [bad]) == [];
    assert ([0x00] + d)[1..] == d && ([0x00] + g)[1..] == g;
  }

  method VerifyRecord(env: Env, known: set<string>, store: MemoryStore, recordID: string)
    returns (r: Result<Verdict, FetchError>)
    requires store.Valid()
    ensures r == Err(RecordNotFound) <==> recordID !in store.records
    ensures r == Err(BatchNotFound) <==>
              recordID in store.records && store.records[recordID].batchID !in store.batches
    ensures recordID in store.records && store.records[recordID].batchID in store.batches ==>
              var rec := store.records[recordID];
              exists listing :: IsListing(store.records, rec.batchID, listing) &&
                r == (if AllEncode(env, listing)
                      then Ok(Judge(env, known, rec, store.batches[rec.batchID], listing))
                      else Err(LeafUnavailable)) &&
                (r.Ok? ==> AllEncode(env, listing) &&
                           Means(env, known, rec, store.batches[rec.batchID], listing, r.value))
  {
    if recordID !in store.records {
      return Err(RecordNotFound);
    }
    var rec := store.records[recordID];
    if rec.batchID !in store.batches {
      return Err(BatchNotFound);
    }
    var batch := store.batches[rec.batchID];
    var listing := store.GetRecordsByBatchID(rec.batchID);
    var leaves := ListedLeaves(env, listing);
    if leaves.None? {
      return Err(LeafUnavailable);
    }
    var verdict := VerifyAgainst(env, known, rec, batch, listing, leaves.value);
    return Ok(verdict);
  }

  /** The checks on fetched data: signature, leaf hash, proof. */
  method VerifyAgainst(env: Env, known: set<string>, rec: Record, batch: Batch,
                       ghost listing: seq<Record>, leaves: seq<Bytes>) returns (v: Verdict)
    requires AllEncode(env, listing) && leaves == Leaves(env, listing)
    ensures v == Judge(env, known, rec, batch, listing) && Means(env, known, rec, batch, listing, v)
  {
    JudgeMeans(env, known, rec, batch, listing);
    if batch.keyVersion !in known || !env.check(batch.keyVersion, batch.merkleRoot, batch.signature) {
      return InvalidSignature;
    }
    var payload := env.leafJson(rec);
    if payload.None? {
      return LeafHashFailed;
    }
    var proof: seq<ProofNode> := [];
    if |leaves| > 0 {
      var tree := BuildTree(env.H, leaves);
      var path := GenerateProof(env.H, tree, rec.leafIndex);
      if path.Err? {
        return ProofUnavailable;
      }
      proof := path.value;
    }
    var ok := VerifyProof(env.H, HashLeaf(env.H, payload.value), proof, batch.merkleRoot);
    v := if ok then Valid else ProofRejected;
  }

  /**
   * A record at its place in the listed batch, under the root and signature the
   * batcher made, is valid exactly if the signing key version is still known.
   */
  lemma {:induction false} GenuineIsValid(env: Env, known: set<string>, batch: Batch, rs: seq<Record>, i: nat)
    requires SignaturesCheck(env) && AllEncode(env, rs) && i < |rs| && rs[i].leafIndex == i
    requires batch.merkleRoot == RootOf(env, rs)
    requires batch.signature == env.sign(batch.keyVersion, batch.merkleRoot)
    ensures Judge(env, known, rs[i], batch, rs) ==
            if batch.keyVersion in known then Valid else InvalidSignature
  {
    ProofComplete(env.H, Leaves(env, rs), i);
  }
}
