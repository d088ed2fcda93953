/**
 * The running system as a state machine: appends, closes, the tiering job's
 * steps and crashes, in any order.  Every atomic region of the code is one
 * action; failures are part of the action.
 */
module System {
  import opened Common
  import opened Records
  import opened Store
  import opened Archive
  import opened Batching

  /** How far the tiering job is with a batch, and the records it read of it. */
  datatype Job =
    | Idle
    | HasRead(batchID: string, listing: seq<Record>)
    | HasArchived(batchID: string, listing: seq<Record>)
    | HasIndexed(batchID: string, listing: seq<Record>)
    | HasPurged(batchID: string, listing: seq<Record>)

  /** Where and when a record id was appended. */
  datatype Stamp = Stamp(batchID: string, index: nat, pos: Position)

  /** A batch that is finished with: its row as written, its records, and whether close returned success. */
  datatype Finished = Finished(batch: Batch, records: seq<Record>, success: bool)

  /**
   * `world` is what the program holds.  The rest is history kept for the
   * statements: the records last written for each batch id, the stamp of each
   * record id, the finished batches in order, the batch ids drawn so far, and
   * the (id, body) pairs appended and not lost in a crash, in order.
   */
  datatype Sys = Sys(
    world: World,
    job: Job,
    committed: map<string, seq<Record>>,
    stamps: map<string, Stamp>,
    finished: seq<Finished>,
    drawn: set<string>,
    added: seq<(string, RecordBody)>)

  datatype Action =
    | Add(id: string, body: RecordBody, pos: Position)
    | Close(io: CloseIo)
    | SetBootstrap(flag: bool, table: string)
    | JobRead(batchID: string, listing: seq<Record>)
    | JobArchive(write: WriteIo)
    | JobIndex(entry: WormEntry)
    | JobPurge
    | JobFinish
    | JobStop
    | Crash(batchID: string, now: nat)

  predicate IsJobStep(a: Action) {
    a.JobRead? || a.JobArchive? || a.JobIndex? || a.JobPurge? || a.JobFinish? || a.JobStop?
  }

  function Initial(batchID: string, now: nat): Sys {
    Sys(World(Fresh(batchID, now, Position("", 0)), StoreState(map[], map[], map[]), map[]),
        Idle, map[], map[], [], {batchID}, [])
  }

  /** Ids are fresh, and the job reads what the store lists. */
  ghost predicate Enabled(env: Env, s: Sys, a: Action) {
    match a
    case Add(id, _, _) => id !in s.stamps
    case Close(io) => io.nextBatchID !in s.drawn
    case SetBootstrap(_, _) => true
    case JobRead(b, listing) => s.job == Idle && b in s.world.st.batches && IsListing(s.world.st.records, b, listing)
    case JobArchive(_) => s.job.HasRead?
    case JobIndex(_) => s.job.HasArchived?
    case JobPurge => s.job.HasIndexed?
    case JobFinish => s.job.HasPurged? && s.job.batchID in s.world.st.batches
    case JobStop => true
    case Crash(b, _) => b !in s.drawn
  }

  ghost function Next(env: Env, s: Sys, a: Action): Sys
    requires Enabled(env, s, a)
  {
    match a
    case Add(id, body, pos) => AfterAdd(s, id, body, pos)
    case Close(io) => AfterClose(env, s, io)
    case SetBootstrap(flag, table) => AfterSetBootstrap(s, flag, table)
    case JobRead(b, listing) => s.(job := HasRead(b, listing))
    case JobArchive(write) => AfterArchive(env, s, write)
    case JobIndex(entry) => AfterIndex(s, entry)
    case JobPurge => AfterPurge(s)
    case JobFinish => AfterFinish(s)
    case JobStop => s.(job := Idle)
    case Crash(b, now) => AfterCrash(s, b, now)
  }

  function AfterAdd(s: Sys, id: string, body: RecordBody, pos: Position): Sys {
    s.(world := s.world.(buffer := Append(s.world.buffer, id, body, pos)),
       stamps := s.stamps[id := Stamp(s.world.buffer.batchID, |s.world.buffer.records|, pos)],
       added := s.added + [(id, body)])
  }

  function AfterClose(env: Env, s: Sys, io: CloseIo): Sys {
    var b := s.world.buffer;
    var after := s.(world := CloseOnce(env, s.world, io));
    if !Persists(env, b, io) then after
    else
      var kept := after.(committed := s.committed[b.batchID := b.records]);
      if Closes(env, s.world, io)
      then kept.(finished := s.finished + [Finished(BatchFor(env, b, io), b.records, true)],
                 drawn := s.drawn + {io.nextBatchID})
      else kept
  }

  function AfterSetBootstrap(s: Sys, flag: bool, table: string): Sys {
    s.(world := s.world.(buffer := s.world.buffer.(isBootstrap := flag, bootstrapTable := table)))
  }

  function AfterArchive(env: Env, s: Sys, write: WriteIo): Sys
    requires s.job.HasRead?
  {
    var key := ArchiveObject(s.job.batchID);
    s.(world := s.world.(objects := Written(s.world.objects, key, Jsonl(env, s.job.listing), write)),
       job := if WriteOk(s.world.objects, key, write) then HasArchived(s.job.batchID, s.job.listing) else Idle)
  }

  function AfterIndex(s: Sys, entry: WormEntry): Sys
    requires s.job.HasArchived?
  {
    s.(world := s.world.(st := s.world.st.(wormIndex := s.world.st.wormIndex[s.job.batchID := entry])),
       job := HasIndexed(s.job.batchID, s.job.listing))
  }

  function AfterPurge(s: Sys): Sys
    requires s.job.HasIndexed?
  {
    s.(world := s.world.(st := s.world.st.(records := WithoutBatch(s.world.st.records, s.job.batchID))),
       job := HasPurged(s.job.batchID, s.job.listing))
  }

  function AfterFinish(s: Sys): Sys
    requires s.job.HasPurged? && s.job.batchID in s.world.st.batches
  {
    var b := s.job.batchID;
    s.(world := s.world.(st := SetStatus(s.world.st, b, "archived", Some(PathOf(ArchiveObject(b))))), job := Idle)
  }

  /** The buffer is gone; what was written for the open batch, if anything, is finished with. */
  function AfterCrash(s: Sys, b: string, now: nat): Sys {
    var cur := s.world.buffer.batchID;
    var left := if cur in s.committed then s.committed[cur] else [];
    s.(world := s.world.(buffer := Fresh(b, now, Position("", 0))),
       finished := s.finished + if cur in s.committed && cur in s.world.st.batches
                                then [Finished(s.world.st.batches[cur], left, false)] else [],
       drawn := s.drawn + {b},
       added := Pairs(FinishedRecords(s.finished) + left))
  }

  function Pairs(rs: seq<Record>): (ps: seq<(string, RecordBody)>)
    ensures |ps| == |rs|
  {
    seq(|rs|, i requires 0 <= i < |rs| => (rs[i].id, rs[i].body))
  }

  /** The records of the finished batches, in order. */
  function FinishedRecords(fs: seq<Finished>): seq<Record> {
    if fs == [] then [] else FinishedRecords(fs[..|fs| - 1]) + fs[|fs| - 1].records
  }

  // ------------------------------------------------------------- invariants

  /** The row of batch b vouches for rs. */
  ghost predicate Vouched(env: Env, b: string, batch: Batch, rs: seq<Record>) {
    && rs != [] && Stamped(b, rs) && AllEncode(env, rs)
    && batch.id == b && batch.eventCount == |rs|
    && batch.merkleRoot == RootOf(env, rs)
    && batch.signature == env.sign(batch.keyVersion, batch.merkleRoot)
  }

  ghost predicate AllHot(m: map<string, Record>, rs: seq<Record>) {
    forall i :: 0 <= i < |rs| ==> rs[i].id in m && m[rs[i].id] == rs[i]
  }

  ghost predicate NoneHot(m: map<string, Record>, b: string) {
    forall k :: k in m ==> m[k].batchID != b
  }

  /** The batch is in the hot store as a whole or not at all. */
  ghost predicate Whole(m: map<string, Record>, b: string, rs: seq<Record>) {
    AllHot(m, rs) || NoneHot(m, b)
  }

  /** r's id was stamped with the batch and index r carries. */
  ghost predicate Known(stamps: map<string, Stamp>, r: Record) {
    r.id in stamps && stamps[r.id].batchID == r.batchID && stamps[r.id].index == r.leafIndex
  }

  ghost predicate AllKnown(stamps: map<string, Stamp>, rs: seq<Record>) {
    forall i :: 0 <= i < |rs| ==> Known(stamps, rs[i])
  }

  /** `pos` is the position the last record of rs was added with. */
  ghost predicate LastAt(stamps: map<string, Stamp>, rs: seq<Record>, pos: Position) {
    rs != [] && rs[|rs| - 1].id in stamps && stamps[rs[|rs| - 1].id].pos == pos
  }

  /** Every batch row vouches for the records last written with it. */
  ghost predicate VouchInv(env: Env, batches: map<string, Batch>, committed: map<string, seq<Record>>) {
    && batches.Keys == committed.Keys
    && forall b :: b in committed ==> Vouched(env, b, batches[b], committed[b])
  }

  ghost predicate BatchStamps(stamps: map<string, Stamp>, batch: Batch, rs: seq<Record>) {
    AllKnown(stamps, rs) && LastAt(stamps, rs, batch.position)
  }

  ghost predicate StampInv(stamps: map<string, Stamp>, batches: map<string, Batch>,
                           committed: map<string, seq<Record>>) {
    forall b :: b in committed && b in batches ==> BatchStamps(stamps, batches[b], committed[b])
  }

  ghost predicate WholeInv(m: map<string, Record>, committed: map<string, seq<Record>>) {
    forall b :: b in committed ==> Whole(m, b, committed[b])
  }

  /** r is the record written at its place in its batch. */
  ghost predicate Filed(committed: map<string, seq<Record>>, r: Record) {
    r.batchID in committed && r.leafIndex < |committed[r.batchID]| && committed[r.batchID][r.leafIndex] == r
  }

  ghost predicate HotInv(records: map<string, Record>, committed: map<string, seq<Record>>) {
    forall k :: k in records ==> records[k].id == k && Filed(committed, records[k])
  }

  ghost predicate BufferInv(b: BatcherState, stamps: map<string, Stamp>, drawn: set<string>,
                            committed: map<string, seq<Record>>) {
    && b.batchID in drawn && committed.Keys <= drawn
    && Stamped(b.batchID, b.records) && AllKnown(stamps, b.records)
    && (b.records != [] ==> LastAt(stamps, b.records, b.lastPosition))
    && (b.batchID in committed ==> committed[b.batchID] <= b.records)
  }

  /** Equal but for what tiering may change. */
  predicate SameProof(x: Batch, y: Batch) {
    x.(status := y.status, wormObjectKey := y.wormObjectKey) == y
  }

  ghost predicate FinishedOk(env: Env, w: World, committed: map<string, seq<Record>>, f: Finished) {
    var b := f.batch.id;
    && b in committed && b in w.st.batches && committed[b] == f.records && f.records != []
    && b != w.buffer.batchID
    && SameProof(f.batch, w.st.batches[b])
    && (f.success ==> CheckpointObject(b) in w.objects && w.objects[CheckpointObject(b)] == env.checkpointJson(f.batch))
  }

  ghost predicate Accounted(finished: seq<Finished>, b: string) {
    exists i :: 0 <= i < |finished| && finished[i].batch.id == b
  }

  /** The finished batches are written, are different, and are all the batches written but the open one. */
  ghost predicate FinishedInv(env: Env, w: World, committed: map<string, seq<Record>>, finished: seq<Finished>) {
    && (forall i :: 0 <= i < |finished| ==> FinishedOk(env, w, committed, finished[i]))
    && (forall i, j :: 0 <= i < j < |finished| ==> finished[i].batch.id != finished[j].batch.id)
    && (forall b :: b in committed && b != w.buffer.batchID ==> Accounted(finished, b))
  }

  /** Finished batches followed by the open buffer are what was added. */
  ghost predicate Conserved(s: Sys) {
    s.added == Pairs(FinishedRecords(s.finished) + s.world.buffer.records)
  }

  ghost predicate Inv(env: Env, s: Sys) {
    && VouchInv(env, s.world.st.batches, s.committed)
    && StampInv(s.stamps, s.world.st.batches, s.committed)
    && WholeInv(s.world.st.records, s.committed)
    && HotInv(s.world.st.records, s.committed)
    && BufferInv(s.world.buffer, s.stamps, s.drawn, s.committed)
    && FinishedInv(env, s.world, s.committed, s.finished)
    && Conserved(s)
  }

  // ---------------------------------------------------------------- appending

  lemma {:induction false} InitialInv(env: Env, batchID: string, now: nat)
    ensures Inv(env, Initial(batchID, now))
  {
  }

  lemma {:induction false} StampsGrow(stamps: map<string, Stamp>, id: string, stamp: Stamp,
                                      batches: map<string, Batch>, committed: map<string, seq<Record>>)
    requires StampInv(stamps, batches, committed) && id !in stamps
    ensures StampInv(stamps[id := stamp], batches, committed)
  {
    forall b | b in committed && b in batches ensures BatchStamps(stamps[id := stamp], batches[b], committed[b]) {
      assert BatchStamps(stamps, batches[b], committed[b]);
    }
  }

  lemma {:induction false} AddKeepsBuffer(s: Sys, id: string, body: RecordBody, pos: Position)
    requires BufferInv(s.world.buffer, s.stamps, s.drawn, s.committed) && id !in s.stamps
    ensures var t := AfterAdd(s, id, body, pos); BufferInv(t.world.buffer, t.stamps, t.drawn, t.committed)
  {
  }

  lemma {:induction false} PairsAppend(xs: seq<Record>, ys: seq<Record>)
    ensures Pairs(xs + ys) == Pairs(xs) + Pairs(ys)
  {
  }

  lemma {:induction false} AddConserves(s: Sys, id: string, body: RecordBody, pos: Position)
    requires Conserved(s)
    ensures Conserved(AfterAdd(s, id, body, pos))
  {
    var before, r := s.world.buffer.records, Record(id, s.world.buffer.batchID, body, |s.world.buffer.records|);
    Assoc(FinishedRecords(s.finished), before, [r]);
    PairsAppend(FinishedRecords(s.finished) + before, [r]);
    assert Pairs([r]) == [(id, body)];
  }

  /** What FinishedInv says does not mention the buffer's records. */
  lemma {:induction false} FinishedFrame(env: Env, w: World, v: World, committed: map<string, seq<Record>>,
                                         finished: seq<Finished>)
    requires FinishedInv(env, w, committed, finished)
    requires v.st.batches == w.st.batches && v.buffer.batchID == w.buffer.batchID
    requires forall k :: k in w.objects ==> k in v.objects && v.objects[k] == w.objects[k]
    ensures FinishedInv(env, v, committed, finished)
  {
    forall i | 0 <= i < |finished| ensures FinishedOk(env, v, committed, finished[i]) {
      assert FinishedOk(env, w, committed, finished[i]);
    }
  }

  lemma {:induction false} AddKeepsInv(env: Env, s: Sys, id: string, body: RecordBody, pos: Position)
    requires Inv(env, s) && id !in s.stamps
    ensures Inv(env, AfterAdd(s, id, body, pos))
  {
    var t := AfterAdd(s, id, body, pos);
    StampsGrow(s.stamps, id, t.stamps[id], s.world.st.batches, s.committed);
    AddKeepsBuffer(s, id, body, pos);
    AddConserves(s, id, body, pos);
    FinishedFrame(env, s.world, t.world, s.committed, s.finished);
  }

  // ------------------------------------------------------------------ closing

  /** Ids are distinct in a stamped list whose stamps are known. */
  lemma {:induction false} KnownDistinct(stamps: map<string, Stamp>, b: string, rs: seq<Record>)
    requires Stamped(b, rs) && AllKnown(stamps, rs)
    ensures DistinctIds(rs)
  {
    forall i, j | 0 <= i < j < |rs| ensures rs[i].id != rs[j].id {
      assert Known(stamps, rs[i]) && Known(stamps, rs[j]);
    }
  }

  /** Writing one batch leaves the records of another alone. */
  lemma {:induction false} OthersStayHot(stamps: map<string, Stamp>, m: map<string, Record>,
                                         rs: seq<Record>, c: string, cs: seq<Record>)
    requires AllKnown(stamps, rs) && AllKnown(stamps, cs) && AllHot(m, cs)
    requires (forall i :: 0 <= i < |rs| ==> rs[i].batchID != c) && forall i :: 0 <= i < |cs| ==> cs[i].batchID == c
    ensures AllHot(PutRecords(m, rs), cs)
  {
    var m' := PutRecords(m, rs);
    forall i | 0 <= i < |cs| ensures cs[i].id in m' && m'[cs[i].id] == cs[i] {
      assert Known(stamps, cs[i]);
      forall j | 0 <= j < |rs| ensures rs[j].id != cs[i].id {
        assert Known(stamps, rs[j]);
      }
      PutRecordsKeepsOthers(m, rs, cs[i].id);
    }
  }

  lemma {:induction false} OthersStayOut(m: map<string, Record>, rs: seq<Record>, c: string)
    requires NoneHot(m, c) && forall i :: 0 <= i < |rs| ==> rs[i].batchID != c
    ensures NoneHot(PutRecords(m, rs), c)
  {
    forall k | k in PutRecords(m, rs) ensures PutRecords(m, rs)[k].batchID != c {
      PutRecordsSource(m, rs, k);
    }
  }

  /** The state after a close that reached the store, in the parts that matter here. */
  ghost predicate Rewrites(env: Env, s: Sys, t: Sys, batch: Batch) {
    var b := s.world.buffer;
    && b.records != [] && AllEncode(env, b.records) && Vouched(env, b.batchID, batch, b.records)
    && batch.position == b.lastPosition && batch.status == "signed"
    && t.world.st == WithBatch(s.world.st, batch, b.records)
    && t.committed == s.committed[b.batchID := b.records]
    && t.stamps == s.stamps
    && forall k :: k in s.world.objects ==> k in t.world.objects && t.world.objects[k] == s.world.objects[k]
  }

  /** A batch other than the one written is where it was. */
  lemma {:induction false} OtherStays(env: Env, s: Sys, t: Sys, batch: Batch, c: string)
    requires VouchInv(env, s.world.st.batches, s.committed) && StampInv(s.stamps, s.world.st.batches, s.committed)
    requires BufferInv(s.world.buffer, s.stamps, s.drawn, s.committed)
    requires Rewrites(env, s, t, batch) && c in s.committed && c != s.world.buffer.batchID
    ensures AllHot(s.world.st.records, s.committed[c]) ==> AllHot(t.world.st.records, s.committed[c])
    ensures NoneHot(s.world.st.records, c) ==> NoneHot(t.world.st.records, c)
  {
    var b, m, cs := s.world.buffer, s.world.st.records, s.committed[c];
    assert Vouched(env, c, s.world.st.batches[c], cs);
    assert BatchStamps(s.stamps, s.world.st.batches[c], cs);
    if AllHot(m, cs) {
      OthersStayHot(s.stamps, m, b.records, c, cs);
    }
    if NoneHot(m, c) {
      OthersStayOut(m, b.records, c);
    }
  }

  /** The batch written is hot as a whole. */
  lemma {:induction false} WrittenIsHot(stamps: map<string, Stamp>, m: map<string, Record>, b: string, rs: seq<Record>)
    requires Stamped(b, rs) && AllKnown(stamps, rs)
    ensures AllHot(PutRecords(m, rs), rs)
  {
    KnownDistinct(stamps, b, rs);
    forall i | 0 <= i < |rs| ensures rs[i].id in PutRecords(m, rs) && PutRecords(m, rs)[rs[i].id] == rs[i] {
      PutRecordsFiles(m, rs, i);
    }
  }

  lemma {:induction false} RewriteKeepsWhole(env: Env, s: Sys, t: Sys, batch: Batch)
    requires Inv(env, s) && Rewrites(env, s, t, batch)
    ensures WholeInv(t.world.st.records, t.committed)
  {
    var b := s.world.buffer;
    forall c | c in t.committed ensures Whole(t.world.st.records, c, t.committed[c]) {
      if c == b.batchID {
        WrittenIsHot(s.stamps, s.world.st.records, c, b.records);
      } else {
        assert Whole(s.world.st.records, c, s.committed[c]);
        OtherStays(env, s, t, batch, c);
      }
    }
  }

  /** A filed record stays filed when its batch is written again with more records. */
  lemma {:induction false} StaysFiled(committed: map<string, seq<Record>>, b: string, rs: seq<Record>, r: Record)
    requires Filed(committed, r) && (b in committed ==> committed[b] <= rs)
    ensures Filed(committed[b := rs], r)
  {
  }

  lemma {:induction false} RewriteKeepsHot(m: map<string, Record>, committed: map<string, seq<Record>>,
                                           b: string, rs: seq<Record>)
    requires HotInv(m, committed) && Stamped(b, rs) && (b in committed ==> committed[b] <= rs)
    ensures HotInv(PutRecords(m, rs), committed[b := rs])
  {
    PutRecordsKeepsFiling(m, rs);
    forall k | k in PutRecords(m, rs) ensures Filed(committed[b := rs], PutRecords(m, rs)[k]) {
      PutRecordsSource(m, rs, k);
      if k in m && PutRecords(m, rs)[k] == m[k] {
        StaysFiled(committed, b, rs, m[k]);
      }
    }
  }

  lemma {:induction false} RewriteKeepsRows(env: Env, s: Sys, t: Sys, batch: Batch)
    requires Inv(env, s) && Rewrites(env, s, t, batch)
    ensures VouchInv(env, t.world.st.batches, t.committed)
    ensures StampInv(t.stamps, t.world.st.batches, t.committed)
  {
    forall c | c in t.committed
      ensures Vouched(env, c, t.world.st.batches[c], t.committed[c])
      ensures BatchStamps(t.stamps, t.world.st.batches[c], t.committed[c])
    {
      if c != s.world.buffer.batchID {
        assert Vouched(env, c, s.world.st.batches[c], s.committed[c]);
        assert BatchStamps(s.stamps, s.world.st.batches[c], s.committed[c]);
      }
    }
  }

  /** Finished batches do not notice a rewrite of the open one. */
  lemma {:induction false} RewriteKeepsFinished(env: Env, w: World, v: World, committed: map<string, seq<Record>>,
                                                after: map<string, seq<Record>>, f: Finished)
    requires FinishedOk(env, w, committed, f)
    requires forall c :: c in committed && c != w.buffer.batchID ==> c in after && after[c] == committed[c]
    requires forall c :: c in w.st.batches && c != w.buffer.batchID ==>
                           c in v.st.batches && v.st.batches[c] == w.st.batches[c]
    requires forall k :: k in w.objects ==> k in v.objects && v.objects[k] == w.objects[k]
    requires v.buffer.batchID !in committed || v.buffer.batchID == w.buffer.batchID
    ensures FinishedOk(env, v, after, f)
  {
  }

  lemma {:induction false} RewriteKeepsStore(env: Env, s: Sys, t: Sys, batch: Batch)
    requires Inv(env, s) && Rewrites(env, s, t, batch)
    ensures VouchInv(env, t.world.st.batches, t.committed)
    ensures StampInv(t.stamps, t.world.st.batches, t.committed)
    ensures WholeInv(t.world.st.records, t.committed)
    ensures HotInv(t.world.st.records, t.committed)
  {
    RewriteKeepsRows(env, s, t, batch);
    RewriteKeepsWhole(env, s, t, batch);
    RewriteKeepsHot(s.world.st.records, s.committed, s.world.buffer.batchID, s.world.buffer.records);
  }

  lemma {:induction false} CloseRewrites(env: Env, s: Sys, io: CloseIo)
    requires Inv(env, s) && Persists(env, s.world.buffer, io)
    ensures Rewrites(env, s, AfterClose(env, s, io), BatchFor(env, s.world.buffer, io))
  {
  }

  /** One more finished batch: the open one, which gives way to a fresh batch. */
  lemma {:induction false} FinishOne(env: Env, s: Sys, t: Sys, f: Finished)
    requires FinishedInv(env, s.world, s.committed, s.finished)
    requires f.batch.id == s.world.buffer.batchID
    requires t.world.buffer.batchID !in t.committed && t.finished == s.finished + [f]
    requires t.committed.Keys == s.committed.Keys + {f.batch.id}
    requires FinishedOk(env, t.world, t.committed, f)
    requires forall i :: 0 <= i < |s.finished| ==> FinishedOk(env, t.world, t.committed, s.finished[i])
    ensures FinishedInv(env, t.world, t.committed, t.finished)
  {
    var n := |s.finished|;
    forall i, j | 0 <= i < j < |t.finished| ensures t.finished[i].batch.id != t.finished[j].batch.id {
      assert FinishedOk(env, s.world, s.committed, s.finished[i]);
    }
    forall b | b in t.committed && b != t.world.buffer.batchID ensures Accounted(t.finished, b) {
      if b == f.batch.id {
        assert t.finished[n].batch.id == b;
      } else {
        assert Accounted(s.finished, b);
        var i :| 0 <= i < n && s.finished[i].batch.id == b;
        assert t.finished[i].batch.id == b;
      }
    }
  }

  lemma {:induction false} FinishConserves(s: Sys, t: Sys, f: Finished)
    requires t.finished == s.finished + [f] && t.world.buffer.records == []
    requires t.added == Pairs(FinishedRecords(s.finished) + f.records)
    ensures Conserved(t)
  {
    assert t.finished[..|t.finished| - 1] == s.finished;
    assert FinishedRecords(t.finished) + [] == FinishedRecords(t.finished);
  }

  /** Every batch but the open one is still accounted for. */
  lemma {:induction false} SameFinished(env: Env, s: Sys, t: Sys)
    requires FinishedInv(env, s.world, s.committed, s.finished) && t.finished == s.finished
    requires t.committed.Keys == s.committed.Keys + {s.world.buffer.batchID}
    requires t.world.buffer.batchID == s.world.buffer.batchID
    requires forall i :: 0 <= i < |s.finished| ==> FinishedOk(env, t.world, t.committed, s.finished[i])
    ensures FinishedInv(env, t.world, t.committed, t.finished)
  {
    forall c | c in t.committed && c != t.world.buffer.batchID ensures Accounted(t.finished, c) {
      assert Accounted(s.finished, c);
    }
  }

  lemma {:induction false} PersistKeepsEach(env: Env, s: Sys, io: CloseIo)
    requires FinishedInv(env, s.world, s.committed, s.finished) && s.committed.Keys <= s.drawn
    requires Persists(env, s.world.buffer, io) && io.nextBatchID !in s.drawn
    ensures var t := AfterClose(env, s, io);
            forall i :: 0 <= i < |s.finished| ==> FinishedOk(env, t.world, t.committed, s.finished[i])
  {
    var t := AfterClose(env, s, io);
    forall i | 0 <= i < |s.finished| ensures FinishedOk(env, t.world, t.committed, s.finished[i]) {
      RewriteKeepsFinished(env, s.world, t.world, s.committed, t.committed, s.finished[i]);
    }
  }

  lemma {:induction false} PersistKeepsFinished(env: Env, s: Sys, io: CloseIo)
    requires FinishedInv(env, s.world, s.committed, s.finished) && s.committed.Keys <= s.drawn
    requires s.world.buffer.batchID in s.drawn
    requires Persists(env, s.world.buffer, io) && io.nextBatchID !in s.drawn
    ensures var t := AfterClose(env, s, io); FinishedInv(env, t.world, t.committed, t.finished)
  {
    var t, b := AfterClose(env, s, io), s.world.buffer;
    PersistKeepsEach(env, s, io);
    if Closes(env, s.world, io) {
      var f := Finished(BatchFor(env, b, io), b.records, true);
      assert FinishedOk(env, t.world, t.committed, f);
      FinishOne(env, s, t, f);
    } else {
      SameFinished(env, s, t);
    }
  }

  lemma {:induction false} PersistKeepsBuffer(env: Env, s: Sys, io: CloseIo)
    requires Conserved(s) && BufferInv(s.world.buffer, s.stamps, s.drawn, s.committed)
    requires Persists(env, s.world.buffer, io) && io.nextBatchID !in s.drawn
    ensures var t := AfterClose(env, s, io);
            BufferInv(t.world.buffer, t.stamps, t.drawn, t.committed) && Conserved(t)
  {
    if Closes(env, s.world, io) {
      FinishConserves(s, AfterClose(env, s, io),
                      Finished(BatchFor(env, s.world.buffer, io), s.world.buffer.records, true));
    }
  }

  lemma {:induction false} PersistKeepsInv(env: Env, s: Sys, io: CloseIo)
    requires Inv(env, s) && Enabled(env, s, Close(io)) && Persists(env, s.world.buffer, io)
    ensures Inv(env, AfterClose(env, s, io))
  {
    CloseRewrites(env, s, io);
    RewriteKeepsStore(env, s, AfterClose(env, s, io), BatchFor(env, s.world.buffer, io));
    PersistKeepsFinished(env, s, io);
    PersistKeepsBuffer(env, s, io);
  }

  /** A close that does not reach the store changes at most the start time of an empty buffer. */
  lemma {:induction false} IdleCloseKeepsInv(env: Env, s: Sys, io: CloseIo)
    requires Inv(env, s) && !Persists(env, s.world.buffer, io)
    ensures Inv(env, AfterClose(env, s, io))
  {
    var t, b := AfterClose(env, s, io), s.world.buffer;
    var b' := t.world.buffer;
    assert t == s.(world := s.world.(buffer := b'));
    assert BufferInv(b', s.stamps, s.drawn, s.committed) by {
      assert b'.records == b.records && b'.batchID == b.batchID && b'.lastPosition == b.lastPosition;
    }
    FinishedFrame(env, s.world, t.world, s.committed, s.finished);
  }

  lemma {:induction false} CloseKeepsInv(env: Env, s: Sys, io: CloseIo)
    requires Inv(env, s) && Enabled(env, s, Close(io))
    ensures Inv(env, AfterClose(env, s, io))
  {
    if Persists(env, s.world.buffer, io) {
      PersistKeepsInv(env, s, io);
    } else {
      IdleCloseKeepsInv(env, s, io);
    }
  }

  lemma {:induction false} SetBootstrapKeepsInv(env: Env, s: Sys, flag: bool, table: string)
    requires Inv(env, s)
    ensures Inv(env, AfterSetBootstrap(s, flag, table))
  {
    FinishedFrame(env, s.world, AfterSetBootstrap(s, flag, table).world, s.committed, s.finished);
  }

  // ------------------------------------------------------------------- crashes

  /** What was written for the open batch is a finished batch after a crash. */
  lemma {:induction false} LeftIsFinished(env: Env, s: Sys, b: string, now: nat)
    requires s.world.buffer.batchID in s.drawn && b !in s.drawn
    requires s.world.buffer.batchID in s.committed && s.world.buffer.batchID in s.world.st.batches
    requires Vouched(env, s.world.buffer.batchID, s.world.st.batches[s.world.buffer.batchID],
                     s.committed[s.world.buffer.batchID])
    ensures var t, cur := AfterCrash(s, b, now), s.world.buffer.batchID;
            FinishedOk(env, t.world, t.committed, Finished(s.world.st.batches[cur], s.committed[cur], false))
  {
  }

  lemma {:induction false} CrashKeepsFinished(env: Env, s: Sys, b: string, now: nat)
    requires VouchInv(env, s.world.st.batches, s.committed) && FinishedInv(env, s.world, s.committed, s.finished)
    requires BufferInv(s.world.buffer, s.stamps, s.drawn, s.committed) && b !in s.drawn
    ensures var t := AfterCrash(s, b, now); FinishedInv(env, t.world, t.committed, t.finished)
  {
    var t, cur := AfterCrash(s, b, now), s.world.buffer.batchID;
    forall i | 0 <= i < |s.finished| ensures FinishedOk(env, t.world, t.committed, s.finished[i]) {
      assert FinishedOk(env, s.world, s.committed, s.finished[i]);
    }
    if cur in s.committed {
      assert Vouched(env, cur, s.world.st.batches[cur], s.committed[cur]);
      LeftIsFinished(env, s, b, now);
      FinishOne(env, s, t, Finished(s.world.st.batches[cur], s.committed[cur], false));
    } else {
      UnfinishedCrash(env, s, t);
    }
  }

  lemma {:induction false} UnfinishedCrash(env: Env, s: Sys, t: Sys)
    requires FinishedInv(env, s.world, s.committed, s.finished) && s.world.buffer.batchID !in s.committed
    requires t.committed == s.committed && t.finished == s.finished
    requires forall i :: 0 <= i < |s.finished| ==> FinishedOk(env, t.world, t.committed, s.finished[i])
    ensures FinishedInv(env, t.world, t.committed, t.finished)
  {
    forall c | c in t.committed && c != t.world.buffer.batchID ensures Accounted(t.finished, c) {
      assert Accounted(s.finished, c);
    }
  }

  lemma {:induction false} CrashConserves(s: Sys, b: string, now: nat)
    requires s.world.buffer.batchID in s.committed ==> s.world.buffer.batchID in s.world.st.batches
    ensures Conserved(AfterCrash(s, b, now))
  {
    var t, cur := AfterCrash(s, b, now), s.world.buffer.batchID;
    if cur in s.committed {
      FinishConserves(s, t, Finished(s.world.st.batches[cur], s.committed[cur], false));
    } else {
      assert s.finished + [] == s.finished;
    }
  }

  lemma {:induction false} CrashKeepsInv(env: Env, s: Sys, b: string, now: nat)
    requires Inv(env, s) && b !in s.drawn
    ensures Inv(env, AfterCrash(s, b, now))
  {
    CrashKeepsFinished(env, s, b, now);
    CrashConserves(s, b, now);
  }

  // ------------------------------------------------------------------ the job

  /** What the store lists for a written batch is the whole batch, unless it was moved out. */
  lemma {:induction false} ListingIsBatch(env: Env, s: Sys, b: string, listing: seq<Record>)
    requires VouchInv(env, s.world.st.batches, s.committed)
    requires HotInv(s.world.st.records, s.committed)
    requires b in s.committed && AllHot(s.world.st.records, s.committed[b])
    requires IsListing(s.world.st.records, b, listing)
    ensures listing == s.committed[b]
  {
    var m, rs := s.world.st.records, s.committed[b];
    assert Vouched(env, b, s.world.st.batches[b], rs);
    forall k | k in m && m[k].batchID == b ensures m[k] in rs {
      assert Filed(s.committed, m[k]);
    }
    ListingUnique(m, b, rs, listing);
  }

  lemma {:induction false} WrittenGrows(objects: map<ObjectKey, Bytes>, key: ObjectKey, data: Bytes, io: WriteIo)
    ensures var grown := Written(objects, key, data, io);
            forall k :: k in objects ==> k in grown && grown[k] == objects[k]
  {
  }

  lemma {:induction false} ArchiveKeepsInv(env: Env, s: Sys, write: WriteIo)
    requires Inv(env, s) && s.job.HasRead?
    ensures Inv(env, AfterArchive(env, s, write))
  {
    var t := AfterArchive(env, s, write);
    WrittenGrows(s.world.objects, ArchiveObject(s.job.batchID), Jsonl(env, s.job.listing), write);
    FinishedFrame(env, s.world, t.world, s.committed, s.finished);
    assert Conserved(t);
  }

  lemma {:induction false} IndexKeepsInv(env: Env, s: Sys, entry: WormEntry)
    requires Inv(env, s) && s.job.HasArchived?
    ensures Inv(env, AfterIndex(s, entry))
  {
    FinishedFrame(env, s.world, AfterIndex(s, entry).world, s.committed, s.finished);
    assert Conserved(AfterIndex(s, entry));
  }

  lemma {:induction false} PurgeKeepsWhole(env: Env, m: map<string, Record>, batches: map<string, Batch>,
                                           committed: map<string, seq<Record>>, b: string)
    requires VouchInv(env, batches, committed) && WholeInv(m, committed)
    ensures WholeInv(WithoutBatch(m, b), committed) && NoneHot(WithoutBatch(m, b), b)
    ensures forall c :: c in committed && c != b && AllHot(m, committed[c]) ==> AllHot(WithoutBatch(m, b), committed[c])
  {
    forall c | c in committed
      ensures Whole(WithoutBatch(m, b), c, committed[c])
      ensures c != b && AllHot(m, committed[c]) ==> AllHot(WithoutBatch(m, b), committed[c])
    {
      assert Whole(m, c, committed[c]);
      assert Vouched(env, c, batches[c], committed[c]);
    }
  }

  lemma {:induction false} PurgeKeepsInv(env: Env, s: Sys)
    requires Inv(env, s) && s.job.HasIndexed?
    ensures Inv(env, AfterPurge(s))
  {
    PurgeKeepsWhole(env, s.world.st.records, s.world.st.batches, s.committed, s.job.batchID);
    FinishedFrame(env, s.world, AfterPurge(s).world, s.committed, s.finished);
    assert Conserved(AfterPurge(s));
  }

  lemma {:induction false} StatusKeepsRows(env: Env, s: Sys, b: string, key: string)
    requires VouchInv(env, s.world.st.batches, s.committed)
    requires StampInv(s.stamps, s.world.st.batches, s.committed) && b in s.world.st.batches
    ensures var st := SetStatus(s.world.st, b, "archived", Some(key));
            VouchInv(env, st.batches, s.committed) && StampInv(s.stamps, st.batches, s.committed)
  {
    var st := SetStatus(s.world.st, b, "archived", Some(key));
    forall c | c in s.committed
      ensures Vouched(env, c, st.batches[c], s.committed[c])
      ensures BatchStamps(s.stamps, st.batches[c], s.committed[c])
    {
      assert Vouched(env, c, s.world.st.batches[c], s.committed[c]);
      assert BatchStamps(s.stamps, s.world.st.batches[c], s.committed[c]);
    }
  }

  lemma {:induction false} StatusKeepsFinished(env: Env, s: Sys, b: string, key: string)
    requires FinishedInv(env, s.world, s.committed, s.finished) && b in s.world.st.batches
    ensures FinishedInv(env, s.world.(st := SetStatus(s.world.st, b, "archived", Some(key))), s.committed, s.finished)
  {
    var w := s.world.(st := SetStatus(s.world.st, b, "archived", Some(key)));
    forall i | 0 <= i < |s.finished| ensures FinishedOk(env, w, s.committed, s.finished[i]) {
      assert FinishedOk(env, s.world, s.committed, s.finished[i]);
    }
  }

  lemma {:induction false} FinishKeepsInv(env: Env, s: Sys)
    requires Inv(env, s) && s.job.HasPurged? && s.job.batchID in s.world.st.batches
    ensures Inv(env, AfterFinish(s))
  {
    var b, key := s.job.batchID, PathOf(ArchiveObject(s.job.batchID));
    StatusKeepsRows(env, s, b, key);
    StatusKeepsFinished(env, s, b, key);
  }

  // ------------------------------------------------------------------ whole runs

  lemma {:induction false} JobKeepsInv(env: Env, s: Sys, a: Action)
    requires Inv(env, s) && Enabled(env, s, a) && IsJobStep(a)
    ensures Inv(env, Next(env, s, a))
  {
    match a
    case JobRead(b, listing) => assert Conserved(Next(env, s, a));
    case JobArchive(write) => ArchiveKeepsInv(env, s, write);
    case JobIndex(entry) => IndexKeepsInv(env, s, entry);
    case JobPurge => PurgeKeepsInv(env, s);
    case JobFinish => FinishKeepsInv(env, s);
    case JobStop => assert Conserved(Next(env, s, a));
  }

  /** Every enabled action keeps the invariant. */
  lemma {:induction false} StepKeepsInv(env: Env, s: Sys, a: Action)
    requires Inv(env, s) && Enabled(env, s, a)
    ensures Inv(env, Next(env, s, a))
  {
    if a.Add? {
      AddKeepsInv(env, s, a.id, a.body, a.pos);
    } else if a.Close? {
      CloseKeepsInv(env, s, a.io);
    } else if a.SetBootstrap? {
      SetBootstrapKeepsInv(env, s, a.flag, a.table);
    } else if a.Crash? {
      CrashKeepsInv(env, s, a.batchID, a.now);
    } else {
      JobKeepsInv(env, s, a);
    }
  }

  /** The actions are enabled one after another, starting in s. */
  ghost predicate IsRun(env: Env, s: Sys, actions: seq<Action>)
    decreases |actions|
  {
    actions == [] || (Enabled(env, s, actions[0]) && IsRun(env, Next(env, s, actions[0]), actions[1..]))
  }

  ghost function After(env: Env, s: Sys, actions: seq<Action>): Sys
    requires IsRun(env, s, actions)
    decreases |actions|
  {
    if actions == [] then s else After(env, Next(env, s, actions[0]), actions[1..])
  }

  lemma {:induction false} RunOf1(env: Env, s: Sys, a: Action, rest: seq<Action>)
    requires Enabled(env, s, a) && IsRun(env, Next(env, s, a), rest)
    ensures IsRun(env, s, [a] + rest)
    ensures After(env, s, [a] + rest) == After(env, Next(env, s, a), rest)
  {
    assert ([a] + rest)[1..] == rest;
  }

  lemma {:induction false} RunAppend(env: Env, s: Sys, r1: seq<Action>, r2: seq<Action>)
    requires IsRun(env, s, r1) && IsRun(env, After(env, s, r1), r2)
    ensures IsRun(env, s, r1 + r2)
    ensures After(env, s, r1 + r2) == After(env, After(env, s, r1), r2)
    decreases |r1|
  {
    if r1 == [] {
      assert r1 + r2 == r2;
    } else {
      var a, rest := r1[0], r1[1..];
      RunAppend(env, Next(env, s, a), rest, r2);
      RunOf1(env, s, a, rest + r2);
      assert r1 + r2 == [a] + (rest + r2);
    }
  }

  lemma {:induction false} RunKeepsInv(env: Env, s: Sys, actions: seq<Action>)
    requires Inv(env, s) && IsRun(env, s, actions)
    ensures Inv(env, After(env, s, actions))
    decreases |actions|
  {
    if actions != [] {
      StepKeepsInv(env, s, actions[0]);
      RunKeepsInv(env, Next(env, s, actions[0]), actions[1..]);
    }
  }

  /** s can be reached from an empty system. */
  ghost predicate Reachable(env: Env, s: Sys) {
    exists b, now, actions :: IsRun(env, Initial(b, now), actions) && s == After(env, Initial(b, now), actions)
  }

  lemma {:induction false} ReachableInv(env: Env, s: Sys)
    requires Reachable(env, s)
    ensures Inv(env, s)
  {
    var b, now, actions :| IsRun(env, Initial(b, now), actions) && s == After(env, Initial(b, now), actions);
    InitialInv(env, b, now);
    RunKeepsInv(env, Initial(b, now), actions);
  }
}
