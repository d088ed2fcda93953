/**
 * Two concrete runs in which an audited change is not recorded.  In the first,
 * one autocommit statement writes two rows, the batch closes after the first of
 * them, and the daemon crashes: the checkpoint is the position of the whole
 * transaction, so the second row is never read again.  In the second, the close
 * after the first row fails, and the processor leaves the transaction.
 */
module Skipped {
  import opened Common
  import opened Records
  import opened Store
  import opened Archive
  import opened Batching
  import opened System
  import opened Source
  import opened Config
  import opened Snapshot
  import opened Encryption
  import opened Selection
  import opened Daemon
  import opened Pipeline
  import opened Persisting
  import opened Resume
  import Binlog
  import LogFiles

  const TWO_ROWS := Binlog.Event(5, 0, Binlog.Rows(Binlog.WriteRows, "shop", "orders", [[Int(1)], [Int(2)]]))
  const LOG: LogFiles.Log := [LogFiles.LogFile("bin.1", [TWO_ROWS], 6)]
  const START := Position("bin.1", 4)
  const CHECKPOINT := Position("bin.1", 5)

  /** The one transaction of the log. */
  function OnlyTx(): Transaction {
    Transaction(Binlog.TxID("bin.1", 5), CHECKPOINT, 0,
                Binlog.Changes(Binlog.WriteRows, "shop", "orders", [[Int(1)], [Int(2)]]), "")
  }

  lemma {:induction false} LogIsOk()
    ensures LogFiles.LogOk(LOG) && LogFiles.CanStart(LOG, START)
  {
    assert LogFiles.FileOk(LOG[0]) by {
      assert !LogFiles.OpenAt([TWO_ROWS], 0);
      assert !LogFiles.OpenAt([TWO_ROWS], 1);
    }
    assert LogFiles.StartsAt(LOG, START, 0);
  }

  lemma {:induction false} LogStream()
    ensures LogFiles.Stream(LOG, START) == [LogFiles.SeekTo("bin.1", 4)] + [TWO_ROWS]
  {
    LogIsOk();
    LogFiles.StreamIs(LOG, 0, START);
    assert LogFiles.Tail(LOG, 0, 1) == [];
    assert LogFiles.Tail(LOG, 0, 0) == [TWO_ROWS] + [] == [TWO_ROWS];
  }

  lemma {:induction false} FirstReading(seek: Binlog.Event, s: Binlog.ReadState)
    requires seek == LogFiles.SeekTo("bin.1", 4) && s == Binlog.Start(START)
    ensures Binlog.Output(s, [seek] + [TWO_ROWS]) == [OnlyTx()]
  {
    Binlog.RunAppend(s, [seek], [TWO_ROWS]);
    Binlog.OneEvent(s, seek);
    Binlog.OneEvent(s, TWO_ROWS);
    assert Binlog.Step(s, seek) == s;
  }

  lemma {:induction false} LogReports()
    ensures LogFiles.Reports(LOG, START) == [OnlyTx()]
  {
    LogStream();
    FirstReading(LogFiles.SeekTo("bin.1", 4), Binlog.Start(START));
  }

  lemma {:induction false} NothingAfterOnly(log: LogFiles.Log, pos: Position, tx: Transaction)
    requires LogFiles.LogOk(log) && LogFiles.CanStart(log, pos) && LogFiles.Reports(log, pos) == [tx]
    ensures LogFiles.Reports(log, tx.position) == []
  {
    LogFiles.RestartReportsTheRest(log, pos, 0);
    assert [tx][1..] == [];
  }

  lemma {:induction false} NothingAfterCheckpoint()
    ensures LogFiles.Reports(LOG, CHECKPOINT) == []
  {
    LogIsOk();
    LogReports();
    NothingAfterOnly(LOG, START, OnlyTx());
  }

  // ------------------------------------------------- a checkpoint inside a transaction

  const GOOD_CLOSE := CloseIo(1, "v1", true, true, WriteIo(true, true), "batch-1", 2)

  function FirstCall(body: RecordBody): AddCall {
    AddCall("rec-0", body, CHECKPOINT, GOOD_CLOSE)
  }

  /** Add the first row's record, which fills the batch, close it, crash. */
  function ShortLife(body: RecordBody): Life {
    Life([Own(Add("rec-0", body, CHECKPOINT)), Own(Close(GOOD_CLOSE))], "batch-2", 3, "batch-0")
  }

  function Added(body: RecordBody): Sys {
    AfterAdd(Initial("batch-0", 0), "rec-0", body, CHECKPOINT)
  }

  function Closed(env: Env, body: RecordBody): Sys {
    AfterClose(env, Added(body), GOOD_CLOSE)
  }

  /** The state after a close that succeeds on a buffer of one record, when no batch was closed before. */
  lemma {:induction false} FirstClosed(env: Env, s: Sys, io: CloseIo, rec: Record, b: string)
    requires s.world.buffer.records == [rec] && s.world.buffer.batchID == b && env.leafJson(rec).Some?
    requires io.signOk && io.storeOk && io.checkpoint == WriteIo(true, true) && io.nextBatchID != b
    requires s.world.objects == map[] && s.world.st.batches == map[] && s.committed == map[] && s.finished == []
    ensures var t := AfterClose(env, s, io);
            && t.world.st.batches.Keys == {b} && t.world.st.batches[b].position == s.world.buffer.lastPosition
            && t.drawn == s.drawn + {io.nextBatchID} && t.world.buffer.batchID == io.nextBatchID
            && t.committed.Keys == {b} && Persisted(t) == [rec]
  {
    assert Closes(env, s.world, io);
    ghost var f := Finished(BatchFor(env, s.world.buffer, io), [rec], true);
    assert AfterClose(env, s, io).finished == [f];
    assert [f][..0] == [];
    assert FinishedRecords([f]) == [] + [rec] == [rec];
  }

  lemma {:induction false} ClosedState(env: Env, body: RecordBody)
    requires forall r :: env.leafJson(r).Some?
    ensures var t, rec := Closed(env, body), Record("rec-0", "batch-0", body, 0);
            && t.world.st.batches.Keys == {"batch-0"} && t.world.st.batches["batch-0"].position == CHECKPOINT
            && t.drawn == {"batch-0", "batch-1"} && t.world.buffer.batchID == "batch-1"
            && t.committed.Keys == {"batch-0"} && Persisted(t) == [rec]
  {
    var rec := Record("rec-0", "batch-0", body, 0);
    assert Added(body).world.buffer.records == [rec];
    FirstClosed(env, Added(body), GOOD_CLOSE, rec, "batch-0");
  }

  lemma {:induction false} ShortLifeRuns(env: Env, body: RecordBody)
    ensures var s, actions := Initial("batch-0", 0), [Add("rec-0", body, CHECKPOINT)] + [Close(GOOD_CLOSE)];
            && Actions(ShortLife(body).steps) == actions
            && IsRun(env, s, actions) && AllLater(env, s, actions) && After(env, s, actions) == Closed(env, body)
  {
    var s, add, last := Initial("batch-0", 0), Add("rec-0", body, CHECKPOINT), Close(GOOD_CLOSE);
    var steps := ShortLife(body).steps;
    assert steps[1..] == [Own(last)] && [Own(last)][1..] == [];
    assert Actions([Own(last)]) == [last];
    RunOf1(env, Added(body), last, []);
    RunOf1(env, s, add, [last]);
    assert ([add] + [last])[1..] == [last] && [last][1..] == [];
    assert AllLater(env, Added(body), [last]);
  }

  /** A reader that reports, from START, one transaction of two changes, the first of which may come to this record. */
  ghost predicate ReportsTwo(rd: Reader, slots: seq<Slot>, first: RecordBody) {
    rd.reports(START) == [TxSlots(slots, CHECKPOINT)] && |slots| == 2 && slots[0].makes(first)
  }

  /** The daemon of this reader, with a limit of one record to a batch, lives this life. */
  lemma {:induction false} ShortLifeWorks(env: Env, rd: Reader, slots: seq<Slot>, first: RecordBody)
    requires ReportsTwo(rd, slots, first)
    ensures IsWork(SetupAt(env, 1, rd, START), Start(Initial("batch-0", 0)), ShortLife(first).steps)
  {
    var u, d, c := SetupAt(env, 1, rd, START), Start(Initial("batch-0", 0)), FirstCall(first);
    CallIsWork(u, d, TxSlots(slots, CHECKPOINT), c);
    assert CallSteps(1, d.sys.world, c) == ShortLife(first).steps;
  }

  lemma {:induction false} ShortLifeIsLife(env: Env, rd: Reader, slots: seq<Slot>, first: RecordBody)
    requires (forall r :: env.leafJson(r).Some?) && ReportsTwo(rd, slots, first)
    ensures IsLife(env, 1, rd, Initial("batch-0", 0), START, ShortLife(first))
  {
    ShortLifeWorks(env, rd, slots, first);
    ShortLifeRuns(env, first);
    ClosedState(env, first);
  }

  lemma {:induction false} ShortLifeLeaves(env: Env, body: RecordBody)
    requires forall r :: env.leafJson(r).Some?
    ensures var s, life := Initial("batch-0", 0), ShortLife(body);
            && IsRun(env, s, Actions(life.steps))
            && life.latest in After(env, s, Actions(life.steps)).world.st.batches
            && ResumePosition(env, s, life) == CHECKPOINT
            && Persisted(Reborn(env, s, life)) == [Record("rec-0", "batch-0", body, 0)]
  {
    ShortLifeRuns(env, body);
    ClosedState(env, body);
    CrashPersists(Closed(env, body), "batch-2", 3);
  }

  lemma {:induction false} OneLifeHistory(env: Env, rd: Reader, s: Sys, pos: Position, life: Life)
    requires IsLife(env, 1, rd, s, pos, life)
    ensures IsHistory(env, 1, rd, s, pos, [life]) && Final(env, 1, rd, s, pos, [life]) == Reborn(env, s, life)
  {
    assert [life][1..] == [];
  }

  /**
   * The run is a history in the sense of ResumeStores.  Its only transaction
   * has two audited changes; the first is stored, the second is not, and from
   * the checkpoint on the log reports nothing more.
   */
  lemma {:induction false} ChangeIsSkipped(env: Env, plan: Plan, first: RecordBody)
    requires forall r :: env.leafJson(r).Some?
    requires |plan(OnlyTx())| == 2 && plan(OnlyTx())[0].makes(first)
    ensures var rd, s, life := LogReader(plan, LOG), Initial("batch-0", 0), ShortLife(first);
            && ReportsTwo(rd, plan(OnlyTx()), first)
            && IsHistory(env, 1, rd, s, START, [life])
            && Persisted(Final(env, 1, rd, s, START, [life])) == [Record("rec-0", "batch-0", first, 0)]
            && LogFiles.Reports(LOG, ResumePosition(env, s, life)) == []
  {
    var rd, slots := LogReader(plan, LOG), plan(OnlyTx());
    assert ReportsTwo(rd, slots, first) by {
      LogReports();
      assert WorkOf(plan, [OnlyTx()]) == [TxSlots(slots, CHECKPOINT)];
    }
    ShortLifeIsLife(env, rd, slots, first);
    ShortLifeLeaves(env, first);
    NothingAfterCheckpoint();
    OneLifeHistory(env, rd, Initial("batch-0", 0), START, ShortLife(first));
  }

  // --------------------------------------------------- a close that fails on the way

  const ORDERS := TableConfig("orders", true, "tolerate", "normal", [], false, "not_started")
  const TABLES := map["orders" := ORDERS]
  const ROW := RowChange("shop", "orders", Insert, None, Some(map[]))
  const TWO_CHANGES := Transaction("tx-1", CHECKPOINT, 0, [ROW] + [ROW], "")
  const SIGNER_DOWN := CloseIo(1, "v1", false, true, WriteIo(true, true), "batch-1", 2)

  /** A builder that refuses nothing. */
  function Plainly(): Builder {
    Builder(Codec(v => Some([]), bytes => Some(Null), bytes => "", (bytes, nonce) => Some(bytes),
                  (bytes, version) => Some(bytes), bytes => "", text => Some([]), "v1", true),
            image => Some([]), bytes => None, (draw, isBefore, k) => 0, (change, draw) => Some([]), change => "")
  }

  /** The transaction with a limit of one record to a batch. */
  function TwoInOnes(env: Env, ids: nat -> string, draws: nat -> nat, ios: nat -> CloseIo): TxCase {
    TxCase(env, 1, Plainly(), TABLES, TWO_CHANGES, ids, draws, ios)
  }

  lemma {:induction false} BothAudited()
    ensures AuditedIn(TABLES, TWO_CHANGES.changes) == [ROW] + [ROW]
  {
    assert ([ROW] + [ROW])[..1] == [ROW] && [ROW][..0] == [];
    assert AuditedIn(TABLES, [ROW]) == [ROW];
  }

  lemma {:induction false} BothBuild(x: TxCase)
    requires x == TwoInOnes(x.env, x.ids, x.draws, x.ios)
    ensures |WorkIn(x)| == 2 && AllBuild(x) && |CallsFor(x)| == 2
  {
    BothAudited();
    AllBuildIff(x);
  }

  lemma {:induction false} StopsAtFirst(env: Env, maxEvents: nat, w: World, calls: seq<AddCall>, allBuild: bool,
                                        n: nat, r: Result<(), ProcessError>)
    requires EndsAs(env, maxEvents, w, calls, allBuild, n, r)
    requires calls != [] && AddOutcome(env, maxEvents, w, calls[0]).Err?
    ensures n == 1 && r == AsResult(AddOutcome(env, maxEvents, w, calls[0]))
  {
    assert calls[..0] == [];
    assert !Passes(env, maxEvents, w, calls, 0);
  }

  lemma {:induction false} SignerDownFails(env: Env, c: AddCall)
    requires (forall r :: env.leafJson(r).Some?) && c.io == SIGNER_DOWN
    ensures AddOutcome(env, 1, Initial("batch-0", 0).world, c) == Err(ErrSign)
    ensures |AddOnce(env, 1, Initial("batch-0", 0).world, c).buffer.records| == 1
  {
  }

  /** However the transaction is handled, it ends with the first record, which stays in the buffer. */
  lemma {:induction false} TailIsDropped(x: TxCase, recs: seq<RecordRef>, r: Result<(), ProcessError>, after: World)
    requires x == TwoInOnes(x.env, x.ids, x.draws, x.ios)
    requires (forall r :: x.env.leafJson(r).Some?) && x.ios(0) == SIGNER_DOWN
    requires Handled(x, Initial("batch-0", 0).world, recs, r, after)
    ensures |recs| == 1 && r == Err(ErrAdd(ErrSign)) && |after.buffer.records| == 1
  {
    var calls, w := CallsFor(x), Initial("batch-0", 0).world;
    BothBuild(x);
    SignerDownFails(x.env, calls[0]);
    StopsAtFirst(x.env, 1, w, calls, AllBuild(x), |recs|, r);
    AddAllNext(x.env, 1, w, calls, 0);
    assert calls[..0] == [];
  }

  /** A processor with an empty batcher, a limit of one record to a batch, and one audited table. */
  method NewProcessor(env: Env) returns (p: Processor)
    ensures fresh(p) && fresh(p.config) && fresh(p.batcher) && fresh(p.batcher.store) && fresh(p.batcher.archive)
    ensures p.builder == Plainly() && p.config.tables == TABLES && p.batcher.env == env && p.batcher.maxEvents == 1
    ensures p.batcher.Valid() && p.batcher.Snapshot() == Initial("batch-0", 0).world
  {
    var store := new MemoryStore();
    var archive := new LocalDirArchiveStore();
    var batcher := new Batcher(env, 1, store, archive, "batch-0", 0);
    var config := new Manager(v => []);
    config.SetTableConfig(ORDERS);
    p := new Processor(Plainly(), config, batcher);
  }

  /**
   * The processor run on a transaction of two audited changes, with a limit of
   * one record to a batch and a signer that is down when the first record fills
   * it: whatever would happen at the second change, it is not recorded.
   */
  method DropTail(env: Env, ids: nat -> string, draws: nat -> nat, ios: nat -> CloseIo)
    returns (r: Result<(), ProcessError>, recorded: nat)
    requires (forall r :: env.leafJson(r).Some?) && ios(0) == SIGNER_DOWN
    ensures |AuditedIn(TABLES, TWO_CHANGES.changes)| == 2 && AllBuild(TwoInOnes(env, ids, draws, ios))
    ensures r == Err(ErrAdd(ErrSign)) && recorded == 1
  {
    var processor := NewProcessor(env);
    r := RunOnTwo(processor, ids, draws, ios);
    recorded := |processor.batcher.records|;
    BothBuild(TwoInOnes(env, ids, draws, ios));
  }

  method RunOnTwo(p: Processor, ids: nat -> string, draws: nat -> nat, ios: nat -> CloseIo)
    returns (r: Result<(), ProcessError>)
    requires (forall r :: p.batcher.env.leafJson(r).Some?) && ios(0) == SIGNER_DOWN
    requires p.builder == Plainly() && p.config.tables == TABLES && p.batcher.maxEvents == 1
    requires p.batcher.Valid() && p.batcher.Snapshot() == Initial("batch-0", 0).world
    modifies p.config, p.batcher, p.batcher.store, p.batcher.archive
    ensures r == Err(ErrAdd(ErrSign)) && |p.batcher.records| == 1
  {
    FixedConfig(p.config.dec, TABLES, TWO_CHANGES.changes);
    ghost var x, recs, after := TwoInOnes(p.batcher.env, ids, draws, ios), [], p.batcher.Snapshot();
    r, recs, after := p.ProcessTransaction(TWO_CHANGES, ids, draws, ios, p.batcher.Snapshot());
    TailIsDropped(x, recs, r, after);
  }
}
