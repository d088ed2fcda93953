/**
 * Audit records, batches and the outside functions the system relies on
 * (hashing, JSON, signatures), which are parameters gathered in `Env`.
 */
module Records {
  import opened Common
  import opened Merkle

  /** The part of an audit record that never changes once it is built. */
  datatype RecordBody = RecordBody(
    tableName: string,
    primaryKey: Bytes,
    eventType: string,
    beforeImage: Option<Bytes>,
    afterImage: Option<Bytes>,
    actorUserID: Option<string>,
    actorType: string,
    transactionID: string,
    schemaVersion: string,
    committedAt: nat)

  /** A record as stored: stamped with its batch and its place in the batch's tree. */
  datatype Record = Record(id: string, batchID: string, body: RecordBody, leafIndex: nat)

  datatype Batch = Batch(
    id: string,
    startedAt: nat,
    closedAt: nat,
    eventCount: nat,
    merkleRoot: Bytes,
    signature: Bytes,
    keyVersion: string,
    position: Position,
    status: string,
    wormObjectKey: Option<string>,
    isBootstrap: bool,
    bootstrapTable: Option<string>)

  datatype WormEntry = WormEntry(batchID: string, wormObjectKey: string, tieredAt: nat, purgedAt: nat)

  /**
   * leafJson: the canonical payload hashed into the tree; lineJson: a record as
   * one archive line, and readLine its reader; checkpointJson: the checkpoint
   * object.  A JSON encoder may refuse its argument.
   */
  datatype Env = Env(
    H: Hash,
    leafJson: Record -> Option<Bytes>,
    lineJson: Record -> Option<Bytes>,
    readLine: Bytes -> Option<Record>,
    checkpointJson: Batch -> Bytes,
    sign: (string, Bytes) -> Bytes,
    check: (string, Bytes, Bytes) -> bool)

  /** A signature made under a key version checks under that version. */
  ghost predicate SignaturesCheck(env: Env) {
    forall v, m :: env.check(v, m, env.sign(v, m))
  }

  const NEWLINE: bv8 := 10

  /** An encoded line holds no newline and reads back. */
  ghost predicate LinesReadBack(env: Env) {
    forall r :: env.lineJson(r).Some? ==>
                  && NEWLINE !in env.lineJson(r).value
                  && env.readLine(env.lineJson(r).value) == Some(r)
  }

  /** Whatever can be hashed into a tree can be written as an archive line. */
  ghost predicate HashedMeansWritable(env: Env) {
    forall r :: env.leafJson(r).Some? ==> env.lineJson(r).Some?
  }

  predicate AllEncode(env: Env, rs: seq<Record>) {
    forall i :: 0 <= i < |rs| ==> env.leafJson(rs[i]).Some?
  }

  /** The data entries of a batch's tree. */
  function LeafData(env: Env, rs: seq<Record>): (data: seq<Bytes>)
    requires AllEncode(env, rs)
    ensures |data| == |rs|
  {
    seq(|rs|, i requires 0 <= i < |rs| => env.leafJson(rs[i]).value)
  }

  function Leaves(env: Env, rs: seq<Record>): (hs: seq<Bytes>)
    requires AllEncode(env, rs)
    ensures |hs| == |rs|
    ensures forall i :: 0 <= i < |rs| ==> hs[i] == HashLeaf(env.H, env.leafJson(rs[i]).value)
  {
    LeafHashes(env.H, LeafData(env, rs))
  }

  /** The root a batch of these records gets. */
  function RootOf(env: Env, rs: seq<Record>): Bytes
    requires AllEncode(env, rs)
  {
    TreeHash(env.H, Leaves(env, rs))
  }

  /** Every record carries batch b and its own index. */
  ghost predicate Stamped(b: string, rs: seq<Record>) {
    forall i :: 0 <= i < |rs| ==> rs[i].batchID == b && rs[i].leafIndex == i
  }

  ghost predicate DistinctIds(rs: seq<Record>) {
    forall i, j :: 0 <= i < j < |rs| ==> rs[i].id != rs[j].id
  }

  // ---------------------------------------------------------- archive files

  function LineOf(env: Env, r: Record): Bytes {
    match env.lineJson(r)
    case None => []
    case Some(line) => line + [NEWLINE]
  }

  /** The archive object of a batch: one line per record; a record that does not encode is left out. */
  function Jsonl(env: Env, rs: seq<Record>): Bytes {
    if rs == [] then [] else Jsonl(env, rs[..|rs| - 1]) + LineOf(env, rs[|rs| - 1])
  }

  /** Reading an archive object: the records of its lines, in file order. */
  function ReadJsonl(env: Env, data: Bytes): seq<Record>
    decreases |data|
  {
    if data == [] then []
    else
      var cut := LastLineStart(data[..|data| - 1]);
      var line := data[cut..|data| - 1];
      ReadJsonl(env, data[..cut]) + (match env.readLine(line) case None => [] case Some(r) => [r])
  }

  /** Where the last line of `data` begins: just after its last newline. */
  function LastLineStart(data: Bytes): (i: nat)
    ensures i <= |data|
  {
    if data == [] then 0
    else if data[|data| - 1] == NEWLINE then |data|
    else LastLineStart(data[..|data| - 1])
  }

  lemma {:induction false} LastLineStartAppend(data: Bytes, line: Bytes)
    requires NEWLINE !in line
    requires data == [] || data[|data| - 1] == NEWLINE
    ensures LastLineStart(data + line) == |data|
  {
    if line == [] {
      assert data + line == data;
    } else {
      var n := |line| - 1;
      LastLineStartAppend(data, line[..n]);
      assert (data + line)[..|data| + n] == data + line[..n];
      assert (data + line)[|data| + n] == line[n];
    }
  }

  function Writable(env: Env, rs: seq<Record>): seq<Record> {
    if rs == [] then []
    else
      var last := rs[|rs| - 1];
      Writable(env, rs[..|rs| - 1]) + if env.lineJson(last).Some? then [last] else []
  }

  lemma {:induction false} JsonlEnds(env: Env, rs: seq<Record>)
    ensures var data := Jsonl(env, rs); data == [] || data[|data| - 1] == NEWLINE
  {
    if rs != [] {
      JsonlEnds(env, rs[..|rs| - 1]);
    }
  }

  /** One more line reads as one more record. */
  lemma {:induction false} ReadOneMore(env: Env, data: Bytes, r: Record)
    requires LinesReadBack(env) && env.lineJson(r).Some?
    requires data == [] || data[|data| - 1] == NEWLINE
    ensures ReadJsonl(env, data + LineOf(env, r)) == ReadJsonl(env, data) + [r]
  {
    var line := env.lineJson(r).value;
    var all := data + (line + [NEWLINE]);
    LastLineStartAppend(data, line);
    assert all[..|all| - 1] == data + line;
    assert all[|data|..|all| - 1] == line;
    assert all[..|data|] == data;
  }

  /** An archive object reads back as exactly the records that could be written, in order. */
  lemma {:induction false} JsonlReadsBack(env: Env, rs: seq<Record>)
    requires LinesReadBack(env)
    ensures ReadJsonl(env, Jsonl(env, rs)) == Writable(env, rs)
  {
    if rs != [] {
      var init, last := rs[..|rs| - 1], rs[|rs| - 1];
      JsonlReadsBack(env, init);
      JsonlEnds(env, init);
      if env.lineJson(last).Some? {
        ReadOneMore(env, Jsonl(env, init), last);
      } else {
        assert Jsonl(env, rs) == Jsonl(env, init);
      }
    }
  }

  lemma {:induction false} WritableAll(env: Env, rs: seq<Record>)
    requires AllEncode(env, rs) && HashedMeansWritable(env)
    ensures Writable(env, rs) == rs
  {
    if rs != [] {
      WritableAll(env, rs[..|rs| - 1]);
      assert rs == rs[..|rs| - 1] + [rs[|rs| - 1]];
    }
  }

  lemma {:induction false} WritableIff(env: Env, rs: seq<Record>, r: Record)
    requires r in rs
    ensures r in Writable(env, rs) <==> env.lineJson(r).Some?
  {
    var init, last := rs[..|rs| - 1], rs[|rs| - 1];
    WritableSound(env, init, r);
    if r in init {
      WritableIff(env, init, r);
    } else {
      assert r == last;
    }
  }

  lemma {:induction false} WritableSound(env: Env, rs: seq<Record>, r: Record)
    ensures r in Writable(env, rs) ==> r in rs && env.lineJson(r).Some?
  {
    if rs != [] {
      WritableSound(env, rs[..|rs| - 1], r);
    }
  }

  /** A record handed to the archive writer is in the archive exactly if it encodes. */
  lemma {:induction false} ArchiveKeepsIffWritable(env: Env, rs: seq<Record>, r: Record)
    requires LinesReadBack(env) && r in rs
    ensures r in ReadJsonl(env, Jsonl(env, rs)) <==> env.lineJson(r).Some?
  {
    JsonlReadsBack(env, rs);
    WritableIff(env, rs, r);
  }

  /** If everything in the batch was hashed into its tree, the archive holds the whole batch. */
  lemma {:induction false} ArchiveHoldsAll(env: Env, rs: seq<Record>)
    requires LinesReadBack(env) && HashedMeansWritable(env) && AllEncode(env, rs)
    ensures ReadJsonl(env, Jsonl(env, rs)) == rs
  {
    JsonlReadsBack(env, rs);
    WritableAll(env, rs);
  }
}
