/** What holds in every reachable state of the system. */
module Guarantees {
  import opened Common
  import opened Merkle
  import opened Records
  import opened Store
  import opened Archive
  import opened Batching
  import opened Verifier
  import opened System
  import opened Moving

  // -------------------------------------------------------- batch conservation

  /** The records handed to AddRecord along a run, in order. */
  function Handed(actions: seq<Action>): seq<(string, RecordBody)> {
    if actions == [] then [] else HandedBy(actions[0]) + Handed(actions[1..])
  }

  function HandedBy(a: Action): seq<(string, RecordBody)> {
    if a.Add? then [(a.id, a.body)] else []
  }

  lemma {:induction false} StepAdds(env: Env, s: Sys, a: Action)
    requires Enabled(env, s, a) && !a.Crash?
    ensures Next(env, s, a).added == s.added + HandedBy(a)
  {
  }

  lemma {:induction false} AddedIsHanded(env: Env, s: Sys, actions: seq<Action>)
    requires IsRun(env, s, actions) && forall i :: 0 <= i < |actions| ==> !actions[i].Crash?
    ensures After(env, s, actions).added == s.added + Handed(actions)
    decreases |actions|
  {
    if actions != [] {
      var rest, t := actions[1..], Next(env, s, actions[0]);
      StepAdds(env, s, actions[0]);
      AddedIsHanded(env, t, rest);
      Assoc(s.added, HandedBy(actions[0]), Handed(rest));
    }
  }

  /**
   * Whatever interleaves and whatever fails, the closed batches in order
   * followed by the open buffer are exactly the records handed in, in order,
   * and no closed batch is empty.
   */
  lemma {:induction false} BatchesConserve(env: Env, batchID: string, now: nat, actions: seq<Action>)
    requires IsRun(env, Initial(batchID, now), actions)
    requires forall i :: 0 <= i < |actions| ==> !actions[i].Crash?
    ensures var s := After(env, Initial(batchID, now), actions);
            && Pairs(FinishedRecords(s.finished) + s.world.buffer.records) == Handed(actions)
            && forall i :: 0 <= i < |s.finished| ==> s.finished[i].records != []
  {
    var s := After(env, Initial(batchID, now), actions);
    InitialInv(env, batchID, now);
    RunKeepsInv(env, Initial(batchID, now), actions);
    AddedIsHanded(env, Initial(batchID, now), actions);
    forall i | 0 <= i < |s.finished| ensures s.finished[i].records != [] {
      assert FinishedOk(env, s.world, s.committed, s.finished[i]);
    }
  }

  // ------------------------------------------------------------- verifiability

  /** A hot record's batch is hot as a whole, and is what the store lists for it. */
  lemma {:induction false} HotBatchIsWhole(env: Env, s: Sys, id: string, listing: seq<Record>)
    requires Inv(env, s) && id in s.world.st.records
    requires IsListing(s.world.st.records, s.world.st.records[id].batchID, listing)
    ensures var r := s.world.st.records[id];
            r.batchID in s.committed && r.leafIndex < |listing| && listing[r.leafIndex] == r &&
            listing == s.committed[r.batchID]
  {
    var m, r := s.world.st.records, s.world.st.records[id];
    assert Filed(s.committed, r);
    assert Whole(m, r.batchID, s.committed[r.batchID]);
    ListingIsBatch(env, s, r.batchID, listing);
  }

  /**
   * In every reachable state every record in the hot store verifies, whatever
   * order the record map is iterated in, exactly if the key version its batch
   * was signed under is still known.
   */
  lemma {:induction false} HotRecordsVerify(env: Env, known: set<string>, s: Sys, id: string, listing: seq<Record>)
    requires Reachable(env, s) && SignaturesCheck(env) && id in s.world.st.records
    requires IsListing(s.world.st.records, s.world.st.records[id].batchID, listing)
    ensures var r := s.world.st.records[id];
            && r.batchID in s.world.st.batches && AllEncode(env, listing)
            && Judge(env, known, r, s.world.st.batches[r.batchID], listing) ==
               if s.world.st.batches[r.batchID].keyVersion in known then Valid else InvalidSignature
  {
    ReachableInv(env, s);
    HotBatchIsWhole(env, s, id, listing);
    var r := s.world.st.records[id];
    var batch := s.world.st.batches[r.batchID];
    assert Vouched(env, r.batchID, batch, listing);
    GenuineIsValid(env, known, batch, listing, r.leafIndex);
  }

  /** The verifier run on the store of a reachable state: no error, and this verdict. */
  method VerifyHotRecord(env: Env, known: set<string>, store: MemoryStore, id: string, ghost s: Sys)
    returns (r: Result<Verdict, FetchError>)
    requires store.Valid() && store.State() == s.world.st && id in store.records
    requires Reachable(env, s) && SignaturesCheck(env)
    ensures store.records[id].batchID in store.batches
    ensures r == Ok(if store.batches[store.records[id].batchID].keyVersion in known then Valid else InvalidSignature)
  {
    r := VerifyRecord(env, known, store, id);
    ReachableInv(env, s);
    assert Filed(s.committed, s.world.st.records[id]);
    ghost var listing :| IsListing(store.records, store.records[id].batchID, listing) &&
                   r == if AllEncode(env, listing)
                        then Ok(Judge(env, known, store.records[id], store.batches[store.records[id].batchID], listing))
                        else Err(LeafUnavailable);
    HotRecordsVerify(env, known, s, id, listing);
  }

  // ------------------------------------------------------ nothing lost to tiering

  /** r is in the hot store or in its batch's archive object. */
  ghost predicate Kept(env: Env, w: World, r: Record) {
    || (r.id in w.st.records && w.st.records[r.id] == r)
    || (ArchiveObject(r.batchID) in w.objects && r in ReadJsonl(env, w.objects[ArchiveObject(r.batchID)]))
  }

  /**
   * Every record of a finished batch is kept, through any tiering runs, errors,
   * stops and crashes, unless a close outran the job before its purge.
   */
  lemma {:induction false} TieringConserves(env: Env, s: Sys, i: nat, r: Record)
    requires CalmlyReachable(env, s, false) && LinesReadBack(env) && HashedMeansWritable(env)
    requires i < |s.finished| && r in s.finished[i].records
    ensures Kept(env, s.world, r)
  {
    CalmlyReachableInv(env, s, false);
    var b := s.finished[i].batch.id;
    assert FinishedOk(env, s.world, s.committed, s.finished[i]);
    assert Vouched(env, b, s.world.st.batches[b], s.committed[b]);
    assert Placed(env, s.world, b, s.committed[b]);
    ArchiveHoldsAll(env, s.committed[b]);
  }

  /**
   * A batch marked archived can still be proved from its archive object: the
   * records read from it, in file order, hash to the root in the batch row, and
   * the row's signature is the one made for that root.  No close may have outrun
   * the job anywhere between its read and its end.
   */
  lemma {:induction false} ArchivedStaysProvable(env: Env, s: Sys, b: string)
    requires CalmlyReachable(env, s, true) && LinesReadBack(env) && HashedMeansWritable(env)
    requires b in s.world.st.batches && s.world.st.batches[b].status == "archived"
    ensures ArchiveObject(b) in s.world.objects
    ensures var rs, batch := ReadJsonl(env, s.world.objects[ArchiveObject(b)]), s.world.st.batches[b];
            && |rs| == batch.eventCount && AllEncode(env, rs)
            && RootOf(env, rs) == batch.merkleRoot == RfcTreeHash(env.H, LeafData(env, rs))
            && batch.signature == env.sign(batch.keyVersion, batch.merkleRoot)
  {
    CalmlyReachableInv(env, s, true);
    var rs := s.committed[b];
    assert Vouched(env, b, s.world.st.batches[b], rs);
    ArchiveHoldsAll(env, rs);
    TreeHashIsRfc(env.H, LeafData(env, rs));
  }

  /** Tiering changes only a batch's status and object key, and the checkpoint object agrees with the row as signed. */
  lemma {:induction false} RootAndSignatureStay(env: Env, s: Sys, i: nat)
    requires Reachable(env, s) && i < |s.finished|
    ensures var f := s.finished[i];
            && f.batch.id in s.world.st.batches
            && SameProof(f.batch, s.world.st.batches[f.batch.id])
            && (f.success ==> CheckpointObject(f.batch.id) in s.world.objects &&
                              s.world.objects[CheckpointObject(f.batch.id)] == env.checkpointJson(f.batch))
  {
    ReachableInv(env, s);
    assert FinishedOk(env, s.world, s.committed, s.finished[i]);
  }

  // ------------------------------------------------- where the guarantees stop

  /** The job has read its batch, has not purged it yet, and nothing stands in its way. */
  ghost predicate CanPass(env: Env, s: Sys) {
    || (s.job.HasRead? && ArchiveObject(s.job.batchID) !in s.world.objects)
    || ((s.job.HasArchived? || s.job.HasIndexed?) && Archived(env, s.world.objects, s.job.batchID, s.job.listing))
  }

  /** The rest of the pass up to the purge, nothing failing. */
  function PassActions(s: Sys, entry: WormEntry): seq<Action> {
    (if s.job.HasRead? then [JobArchive(WriteIo(true, true))] else []) +
    (if s.job.HasIndexed? then [] else [JobIndex(entry)]) + [JobPurge]
  }

  ghost function Passed(env: Env, s: Sys, entry: WormEntry): Sys
    requires CanPass(env, s)
  {
    var archived := if s.job.HasRead? then AfterArchive(env, s, WriteIo(true, true)) else s;
    AfterPurge(if archived.job.HasArchived? then AfterIndex(archived, entry) else archived)
  }

  lemma {:induction false} PassIsRun(env: Env, s: Sys, entry: WormEntry)
    requires CanPass(env, s)
    ensures IsRun(env, s, PassActions(s, entry)) && After(env, s, PassActions(s, entry)) == Passed(env, s, entry)
  {
    var t := if s.job.HasRead? then AfterArchive(env, s, WriteIo(true, true)) else s;
    var u := if t.job.HasArchived? then AfterIndex(t, entry) else t;
    RunOf1(env, u, JobPurge, []);
    if t.job.HasArchived? {
      RunOf1(env, t, JobIndex(entry), [JobPurge]);
    }
    if s.job.HasRead? {
      RunOf1(env, s, JobArchive(WriteIo(true, true)), [JobIndex(entry)] + [JobPurge]);
      assert PassActions(s, entry) == [JobArchive(WriteIo(true, true))] + ([JobIndex(entry)] + [JobPurge]);
    } else {
      assert PassActions(s, entry) == (if s.job.HasIndexed? then [] else [JobIndex(entry)]) + [JobPurge];
    }
  }

  /**
   * A pass keeps a record of its batch exactly if the record was read and
   * encodes as a line: the job skips what does not encode, and the purge takes
   * everything, whether it was read or written since.
   */
  lemma {:induction false} PassKeepsIff(env: Env, s: Sys, entry: WormEntry, r: Record)
    requires LinesReadBack(env) && CanPass(env, s) && r.batchID == s.job.batchID
    ensures Kept(env, Passed(env, s, entry).world, r) <==> r in s.job.listing && env.lineJson(r).Some?
  {
    var t := Passed(env, s, entry);
    assert t.world.objects[ArchiveObject(r.batchID)] == Jsonl(env, s.job.listing);
    JsonlReadsBack(env, s.job.listing);
    WritableSound(env, s.job.listing, r);
    if r in s.job.listing {
      WritableIff(env, s.job.listing, r);
    }
  }

  /**
   * When a close writes the batch the job is about to move, going through with
   * the move loses a record of the batch exactly if the close outran the job.  A
   * retry that adds no record does no harm.
   */
  lemma {:induction false} LosesIffOutrun(env: Env, s: Sys, io: CloseIo, entry: WormEntry)
    requires LinesReadBack(env) && HashedMeansWritable(env) && CanPass(env, s)
    requires Persists(env, s.world.buffer, io) && Stamped(s.world.buffer.batchID, s.world.buffer.records)
    requires s.job.batchID == s.world.buffer.batchID
    ensures var t := AfterClose(env, s, io);
            && CanPass(env, t)
            && ((exists r :: r in t.committed[s.job.batchID] && !Kept(env, Passed(env, t, entry).world, r))
                <==> Outruns(env, s, Close(io)))
  {
    var t := AfterClose(env, s, io);
    assert t.committed[s.job.batchID] == s.world.buffer.records && t.job == s.job;
    PassKeepsRead(env, t, entry, s.world.buffer.records);
  }

  lemma {:induction false} PassKeepsRead(env: Env, s: Sys, entry: WormEntry, rs: seq<Record>)
    requires LinesReadBack(env) && HashedMeansWritable(env) && CanPass(env, s)
    requires AllEncode(env, rs) && Stamped(s.job.batchID, rs)
    ensures forall r :: r in rs ==> (Kept(env, Passed(env, s, entry).world, r) <==> r in s.job.listing)
  {
    forall r | r in rs ensures Kept(env, Passed(env, s, entry).world, r) <==> r in s.job.listing {
      PassKeepsIff(env, s, entry, r);
      assert env.leafJson(r).Some?;
    }
  }

  /** Closing the batch under a job that has purged it, and finishing the job: the row counts the new records. */
  lemma {:induction false} LateRow(env: Env, s: Sys, io: CloseIo)
    requires s.job.HasPurged? && s.job.batchID == s.world.buffer.batchID && Persists(env, s.world.buffer, io)
    ensures var t, b := AfterClose(env, s, io), s.job.batchID;
            && b in t.world.st.batches
            && AfterFinish(t).world.st.batches[b].status == "archived"
            && AfterFinish(t).world.st.batches[b].eventCount == |s.world.buffer.records|
    ensures Grows(s.world.objects, AfterClose(env, s, io).world.objects)
  {
  }

  lemma {:induction false} NewMeansLonger(before: seq<Record>, rs: seq<Record>)
    requires before <= rs && exists r :: r in rs && r !in before
    ensures |before| < |rs|
  {
    assert |before| == |rs| ==> before == rs;
  }

  /** Between the purge and the end it no longer loses a record, but the archived batch cannot be proved any more. */
  lemma {:induction false} LateOutrunUnproves(env: Env, s: Sys, io: CloseIo)
    requires Inv(env, s) && MoveInv(env, s, true) && LinesReadBack(env) && HashedMeansWritable(env)
    requires s.job.HasPurged? && Outruns(env, s, Close(io))
    ensures var t, b := AfterClose(env, s, io), s.job.batchID;
            && b in t.world.st.batches
            && var batch, objects := AfterFinish(t).world.st.batches[b], AfterFinish(t).world.objects;
               && batch.status == "archived" && ArchiveObject(b) in objects
               && |ReadJsonl(env, objects[ArchiveObject(b)])| < batch.eventCount
  {
    var b := s.job.batchID;
    LateRow(env, s, io);
    assert Vouched(env, b, s.world.st.batches[b], s.committed[b]);
    ArchiveHoldsAll(env, s.committed[b]);
    NewMeansLonger(s.committed[b], s.world.buffer.records);
  }

  // How a close comes to outrun the job.  The first close writes the batch but
  // not its checkpoint; the job reads the batch; a record is added; the second
  // close writes the batch again and succeeds; the job goes on.

  const FIRST_CLOSE := CloseIo(1, "v1", true, true, WriteIo(false, false), "b1", 2)
  const SECOND_CLOSE := CloseIo(3, "v1", true, true, WriteIo(true, true), "b2", 4)

  function OneAdded(body: RecordBody, pos: Position): Sys {
    AfterAdd(Initial("b0", 0), "r0", body, pos)
  }

  function HalfClosed(env: Env, body: RecordBody, pos: Position): Sys {
    AfterClose(env, OneAdded(body, pos), FIRST_CLOSE)
  }

  function ReadAndAdded(env: Env, body: RecordBody, pos: Position): Sys {
    AfterAdd(HalfClosed(env, body, pos).(job := HasRead("b0", [Record("r0", "b0", body, 0)])), "r1", body, pos)
  }

  lemma {:induction false} HalfClosedState(env: Env, body: RecordBody, pos: Position)
    requires forall r :: env.leafJson(r).Some?
    ensures var r0, s := Record("r0", "b0", body, 0), HalfClosed(env, body, pos);
            && s.world.buffer.batchID == "b0" && s.world.buffer.records == [r0]
            && s.world.st.records == map["r0" := r0] && "b0" in s.world.st.batches && s.world.objects == map[]
            && s.stamps.Keys == {"r0"} && s.drawn == {"b0"} && s.finished == [] && s.job == Idle
  {
    var r0 := Record("r0", "b0", body, 0);
    assert OneAdded(body, pos).world.buffer.records == [r0];
    assert PutRecords(map[], [r0]) == map["r0" := r0] by {
      assert [r0][..0] == [];
    }
  }

  lemma {:induction false} RewrittenState(env: Env, s: Sys, r0: Record, r1: Record)
    requires AllEncode(env, [r0, r1]) && s.world.buffer.batchID == "b0" && s.world.buffer.records == [r0, r1]
    requires s.world.objects == map[] && s.finished == []
    ensures var t := AfterClose(env, s, SECOND_CLOSE);
            && |t.finished| == 1 && t.finished[0].success && t.finished[0].records == [r0, r1]
            && ArchiveObject("b0") !in t.world.objects && t.job == s.job
  {
  }

  lemma {:induction false} ReadAndAddedState(env: Env, body: RecordBody, pos: Position)
    requires forall r :: env.leafJson(r).Some?
    ensures var r0, r1, s := Record("r0", "b0", body, 0), Record("r1", "b0", body, 1), ReadAndAdded(env, body, pos);
            && s.world.buffer.batchID == "b0" && s.world.buffer.records == [r0, r1] && AllEncode(env, [r0, r1])
            && s.world.objects == map[] && s.drawn == {"b0"} && s.finished == [] && s.job == HasRead("b0", [r0])
  {
    HalfClosedState(env, body, pos);
  }

  function OverlapStart(body: RecordBody, pos: Position): seq<Action> {
    [Add("r0", body, pos)] + ([Close(FIRST_CLOSE)] + ([JobRead("b0", [Record("r0", "b0", body, 0)])] +
    ([Add("r1", body, pos)] + [Close(SECOND_CLOSE)])))
  }

  lemma {:induction false} OverlapEnds(env: Env, s: Sys, body: RecordBody, pos: Position, read: Action)
    requires s.job == Idle && Enabled(env, s, read) && read.JobRead? && "r1" !in s.stamps && "b2" !in s.drawn
    ensures var t := AfterAdd(s.(job := HasRead(read.batchID, read.listing)), "r1", body, pos);
            var run := [read] + ([Add("r1", body, pos)] + [Close(SECOND_CLOSE)]);
            IsRun(env, s, run) && After(env, s, run) == AfterClose(env, t, SECOND_CLOSE)
  {
    var add, last, t := Add("r1", body, pos), [Close(SECOND_CLOSE)], s.(job := HasRead(read.batchID, read.listing));
    RunOf1(env, AfterAdd(t, "r1", body, pos), Close(SECOND_CLOSE), []);
    RunOf1(env, t, add, last);
    RunOf1(env, s, read, [add] + last);
  }

  /** A batch of one record can be read. */
  lemma {:induction false} ReadIsEnabled(env: Env, s: Sys, b: string, r: Record)
    requires s.job == Idle && b in s.world.st.batches && s.world.st.records == map[r.id := r] && r.batchID == b
    ensures Enabled(env, s, JobRead(b, [r]))
  {
    assert [r][0] == r;
  }

  lemma {:induction false} OverlapBegins(env: Env, body: RecordBody, pos: Position, ends: seq<Action>)
    requires IsRun(env, HalfClosed(env, body, pos), ends)
    ensures var s, run := Initial("b0", 0), [Add("r0", body, pos)] + ([Close(FIRST_CLOSE)] + ends);
            IsRun(env, s, run) && After(env, s, run) == After(env, HalfClosed(env, body, pos), ends)
  {
    RunOf1(env, OneAdded(body, pos), Close(FIRST_CLOSE), ends);
    RunOf1(env, Initial("b0", 0), Add("r0", body, pos), [Close(FIRST_CLOSE)] + ends);
  }

  lemma {:induction false} OverlapStartIsRun(env: Env, body: RecordBody, pos: Position)
    requires forall r :: env.leafJson(r).Some?
    ensures IsRun(env, Initial("b0", 0), OverlapStart(body, pos))
    ensures After(env, Initial("b0", 0), OverlapStart(body, pos)) ==
            AfterClose(env, ReadAndAdded(env, body, pos), SECOND_CLOSE)
  {
    var read := JobRead("b0", [Record("r0", "b0", body, 0)]);
    var ends := [read] + ([Add("r1", body, pos)] + [Close(SECOND_CLOSE)]);
    HalfClosedState(env, body, pos);
    ReadIsEnabled(env, HalfClosed(env, body, pos), "b0", Record("r0", "b0", body, 0));
    OverlapEnds(env, HalfClosed(env, body, pos), body, pos, read);
    OverlapBegins(env, body, pos, ends);
  }

  /** A run of the system at whose end a record of a successfully closed batch is nowhere. */
  lemma {:induction false} OverlapLosesRecord(env: Env, body: RecordBody, pos: Position, entry: WormEntry)
    requires LinesReadBack(env) && forall r :: env.leafJson(r).Some?
    ensures var r1, s := Record("r1", "b0", body, 1), Initial("b0", 0);
            var mid := AfterClose(env, ReadAndAdded(env, body, pos), SECOND_CLOSE);
            var run := OverlapStart(body, pos) + PassActions(mid, entry);
            && IsRun(env, s, run)
            && var t := After(env, s, run);
               |t.finished| == 1 && t.finished[0].success && r1 in t.finished[0].records && !Kept(env, t.world, r1)
  {
    var r0, r1, s := Record("r0", "b0", body, 0), Record("r1", "b0", body, 1), ReadAndAdded(env, body, pos);
    var mid := AfterClose(env, s, SECOND_CLOSE);
    ReadAndAddedState(env, body, pos);
    RewrittenState(env, s, r0, r1);
    PassIsRun(env, mid, entry);
    OverlapStartIsRun(env, body, pos);
    RunAppend(env, Initial("b0", 0), OverlapStart(body, pos), PassActions(mid, entry));
    PassKeepsIff(env, mid, entry, r1);
  }
}
