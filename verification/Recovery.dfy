/**
 * The processor as a daemon: running it over delivered transactions is a life
 * in the sense of Resume, so what is proved of crashes and restarts holds of it.
 */
module Recovery {
  import opened Common
  import opened Records
  import opened Batching
  import opened System
  import opened Source
  import opened Config
  import opened Snapshot
  import opened Selection
  import opened Daemon
  import opened Pipeline
  import opened Persisting
  import opened Resume
  import LogFiles

  // -------------------------------------------------- the processor as a daemon

  /** An audited change: whatever is drawn at random makes another record of it. */
  ghost function SlotFor(builder: Builder, tables: map<string, TableConfig>, tx: Transaction, change: RowChange): Slot {
    Slot(body => CanBe(builder, tables, tx, change, body),
         exists draw: nat :: RecordFor(builder, tables, tx, change, draw).None?)
  }

  /** body is a record of the change, for something that may be drawn. */
  ghost predicate CanBe(builder: Builder, tables: map<string, TableConfig>, tx: Transaction, change: RowChange,
                        body: RecordBody) {
    exists draw: nat :: RecordFor(builder, tables, tx, change, draw) == Some(body)
  }

  /** Such a record says what the change was and who made it. */
  lemma {:induction false} CanBeTells(builder: Builder, tables: map<string, TableConfig>, tx: Transaction,
                                      change: RowChange, body: RecordBody)
    requires Audited(tables, change) && CanBe(builder, tables, tx, change, body)
    ensures IsRecordOf(builder, tables, tx, change, body)
  {
    var draw: nat :| RecordFor(builder, tables, tx, change, draw) == Some(body);
    RecordTells(builder, tables, tx, change, draw);
  }

  /** The audited changes of a transaction under a configuration. */
  ghost function SlotsOf(builder: Builder, tables: map<string, TableConfig>, tx: Transaction): (slots: seq<Slot>)
    ensures |slots| == |AuditedIn(tables, tx.changes)|
    ensures forall k :: 0 <= k < |slots| ==> slots[k] == SlotFor(builder, tables, tx, AuditedIn(tables, tx.changes)[k])
  {
    var work := AuditedIn(tables, tx.changes);
    seq(|work|, k requires 0 <= k < |work| => SlotFor(builder, tables, tx, work[k]))
  }

  ghost function PlanFor(builder: Builder, tables: map<string, TableConfig>): Plan {
    tx => SlotsOf(builder, tables, tx)
  }

  ghost function TxSlotsOf(x: TxCase): TxSlots {
    TxSlots(SlotsOf(x.builder, x.tables, x.tx), x.tx.position)
  }

  /** The transactions as audited changes, each under the configuration it is processed with. */
  ghost function WorkUnder(y: RunCase): (work: seq<TxSlots>)
    ensures |work| == |y.txs|
    ensures forall i :: 0 <= i < |y.txs| ==> work[i] == TxSlotsOf(CaseAt(y, i))
  {
    seq(|y.txs|, i requires 0 <= i < |y.txs| => TxSlotsOf(CaseAt(y, i)))
  }

  ghost predicate NoConfigRows(txs: seq<Transaction>) {
    forall i, k :: 0 <= i < |txs| && 0 <= k < |txs[i].changes| ==> txs[i].changes[k].table != "_audit_config"
  }

  lemma {:induction false} FixedTables(dec: ColumnDecoder, tables: map<string, TableConfig>, txs: seq<Transaction>)
    requires NoConfigRows(txs)
    ensures TablesAfter(dec, tables, txs) == tables
  {
    if txs != [] {
      FixedTables(dec, tables, txs[..|txs| - 1]);
      FixedConfig(dec, tables, txs[|txs| - 1].changes);
    }
  }

  /** As long as no transaction changes the configuration, every one is planned under the same. */
  lemma {:induction false} FixedWork(y: RunCase)
    requires NoConfigRows(y.txs)
    ensures WorkUnder(y) == WorkOf(PlanFor(y.builder, y.tables), y.txs)
  {
    forall i | 0 <= i < |y.txs| ensures CaseAt(y, i).tables == y.tables {
      FixedTables(y.dec, y.tables, y.txs[..i + 1]);
    }
  }

  /** So a daemon reading the log from pos works on the transactions of the log's reports, as far as delivered. */
  lemma {:induction false} WorksOnReports(y: RunCase, log: LogFiles.Log, pos: Position)
    requires y.txs <= LogFiles.Reports(log, pos) && NoConfigRows(y.txs)
    ensures WorksOn(SetupAt(y.env, y.maxEvents, LogReader(PlanFor(y.builder, y.tables), log), pos), y)
  {
    FixedWork(y);
  }

  /** The calls of the transactions from i on, none failing. */
  function CallsFrom(y: RunCase, i: nat): seq<AddCall>
    requires i <= |y.txs|
    decreases |y.txs| - i
  {
    if i == |y.txs| then [] else CallsFor(CaseAt(y, i)) + CallsFrom(y, i + 1)
  }

  /** Where the daemon is when the processor has dealt with i transactions. */
  ghost predicate DealtUpTo(e: State, log: RunLog, i: nat)
    requires i < |log.worlds| && i <= |log.done|
  {
    && e.sys.world == log.worlds[i] && e.item == 0 && !e.closing
    && |e.cuts| == i && forall j :: 0 <= j < i ==> e.cuts[j] == |log.done[j]|
  }

  /** A daemon set up for these transactions, perhaps with more to follow. */
  ghost predicate WorksOn(u: Setup, y: RunCase) {
    u.env == y.env && u.maxEvents == y.maxEvents && WorkUnder(y) <= u.work
  }

  lemma {:induction false} TxSteps(u: Setup, x: TxCase, e: State, rest: seq<AddCall>, last: CloseIo,
                                   recs: seq<RecordRef>, r: Result<(), ProcessError>, after: World)
    returns (steps: seq<Step>)
    requires u.env == x.env && u.maxEvents == x.maxEvents && Ready(u, e, TxSlotsOf(x)) && e.item == 0
    requires Handled(x, e.sys.world, recs, r, after) && FreshCalls(e.sys, CallsFor(x) + rest, last)
    ensures IsWork(u, e, steps)
    ensures var f := Ended(u, e, steps);
            && f.sys.world == after && f.item == 0 && !f.closing && f.cuts == e.cuts + [|recs|]
            && FreshCalls(f.sys, rest, last)
  {
    HandledStops(x, e.sys.world, recs, r, after);
    steps := TxIsWork(u, e, TxSlotsOf(x), CallsFor(x), |recs|, rest, last);
  }

  lemma {:induction false} HandledStops(x: TxCase, w: World, recs: seq<RecordRef>, r: Result<(), ProcessError>,
                                        after: World)
    requires Handled(x, w, recs, r, after)
    ensures StopsAt(x.env, x.maxEvents, w, TxSlotsOf(x), CallsFor(x), |recs|)
    ensures after == AddAll(x.env, x.maxEvents, w, CallsFor(x)[..|recs|])
  {
    EndsStop(x.env, x.maxEvents, w, CallsFor(x), AllBuild(x), |recs|, r);
    CallsHandOver(x);
  }

  lemma {:induction false} EndsStop(env: Env, maxEvents: nat, w: World, calls: seq<AddCall>, allBuild: bool, n: nat,
                                    r: Result<(), ProcessError>)
    requires EndsAs(env, maxEvents, w, calls, allBuild, n, r)
    ensures n <= |calls| && forall k :: 0 <= k < n - 1 ==> Passes(env, maxEvents, w, calls, k)
    ensures n == |calls| || (n > 0 && !Passes(env, maxEvents, w, calls, n - 1))
  {
  }

  /** The calls hand over records of the first audited changes, up to one that may fail to be built. */
  lemma {:induction false} CallsHandOver(x: TxCase)
    ensures var calls, w := CallsFor(x), TxSlotsOf(x);
            && |calls| <= |w.slots| && (|calls| < |w.slots| ==> w.slots[|calls|].mayFail)
            && forall k :: 0 <= k < |calls| ==> w.slots[k].makes(calls[k].body) && calls[k].pos == w.pos
  {
    var calls, w := CallsFor(x), TxSlotsOf(x);
    forall k | 0 <= k < |calls| ensures w.slots[k].makes(calls[k].body) && calls[k].pos == w.pos {
      assert RecordFor(x.builder, x.tables, x.tx, WorkIn(x)[k], x.draws(k)) == Some(calls[k].body);
    }
    if |calls| < |w.slots| {
      assert RecordFor(x.builder, x.tables, x.tx, WorkIn(x)[|calls|], x.draws(|calls|)).None?;
    }
  }

  /** The daemon has come from d to e, where the processor has dealt with i transactions. */
  ghost predicate ComesTo(u: Setup, y: RunCase, last: CloseIo, log: RunLog, d: State, steps: seq<Step>, e: State,
                          i: nat)
    requires i <= |y.txs| && i < |log.worlds| && i <= |log.done|
  {
    Leads(u, d, steps, e) && DealtUpTo(e, log, i) && FreshCalls(e.sys, CallsFrom(y, i), last)
  }

  /** Transaction j, from where the daemon deals with it on to the next. */
  lemma {:induction false} OneTxSteps(u: Setup, y: RunCase, last: CloseIo, w: World, log: RunLog, e: State, j: nat)
    returns (more: seq<Step>, f: State)
    requires WorksOn(u, y) && j < |y.txs| && RunHandled(y, |y.txs|, w, log)
    requires DealtUpTo(e, log, j) && FreshCalls(e.sys, CallsFrom(y, j), last)
    ensures ComesTo(u, y, last, log, e, more, f, j + 1)
  {
    assert HandledAt(y, log, j);
    assert u.work[j] == WorkUnder(y)[j] == TxSlotsOf(CaseAt(y, j));
    assert CallsFrom(y, j) == CallsFor(CaseAt(y, j)) + CallsFrom(y, j + 1);
    more := TxSteps(u, CaseAt(y, j), e, CallsFrom(y, j + 1), last, log.done[j], log.outcomes[j], log.worlds[j + 1]);
    f := Ended(u, e, more);
    DealtOneMore(e, f, log, j);
  }

  lemma {:induction false} DealtOneMore(e: State, f: State, log: RunLog, j: nat)
    requires j + 1 < |log.worlds| && j < |log.done| && DealtUpTo(e, log, j)
    requires f.sys.world == log.worlds[j + 1] && f.item == 0 && !f.closing && f.cuts == e.cuts + [|log.done[j]|]
    ensures DealtUpTo(f, log, j + 1)
  {
  }

  /** Some steps lead the daemon from d to where the processor has dealt with i transactions. */
  ghost predicate CanCome(u: Setup, y: RunCase, last: CloseIo, log: RunLog, d: State, i: nat)
    requires i <= |y.txs| && i < |log.worlds| && i <= |log.done|
  {
    exists steps, e :: ComesTo(u, y, last, log, d, steps, e, i)
  }

  /** From transaction j on to the next. */
  lemma {:induction false} NextTxSteps(u: Setup, y: RunCase, last: CloseIo, w: World, log: RunLog, d: State, j: nat)
    requires WorksOn(u, y) && j < |y.txs| && RunHandled(y, |y.txs|, w, log)
    requires CanCome(u, y, last, log, d, j)
    ensures CanCome(u, y, last, log, d, j + 1)
  {
    var before, e :| ComesTo(u, y, last, log, d, before, e, j);
    var more, f := OneTxSteps(u, y, last, w, log, e, j);
    WorkAppend(u, d, before, e, more, f);
    assert ComesTo(u, y, last, log, d, before + more, f, j + 1);
  }

  lemma {:induction false} IsThere(u: Setup, y: RunCase, last: CloseIo, s: Sys, log: RunLog)
    requires RunHandled(y, |y.txs|, s.world, log) && FreshCalls(s, CallsFrom(y, 0), last)
    ensures CanCome(u, y, last, log, Start(s), 0)
  {
    assert ComesTo(u, y, last, log, Start(s), [], Start(s), 0);
  }

  lemma {:induction false} RunSteps(u: Setup, y: RunCase, last: CloseIo, w: World, log: RunLog, d: State, i: nat)
    requires WorksOn(u, y) && i <= |y.txs| && RunHandled(y, |y.txs|, w, log) && CanCome(u, y, last, log, d, 0)
    ensures CanCome(u, y, last, log, d, i)
  {
    if i > 0 {
      RunSteps(u, y, last, w, log, d, i - 1);
      NextTxSteps(u, y, last, w, log, d, i - 1);
    }
  }

  /**
   * Running the processor, from a state described by s, over transactions a
   * daemon is set up for is a work of that daemon: it hands over log.done of each
   * transaction and ends with a close.
   */
  method RunAsDaemon(p: Processor, txs: seq<Transaction>, ids: nat -> nat -> string, draws: nat -> nat -> nat,
                     ios: nat -> nat -> CloseIo, last: CloseIo, ghost u: Setup, ghost s: Sys)
    returns (r: Result<(), CloseError>, ghost log: RunLog, ghost steps: seq<Step>)
    requires p.batcher.Valid() && s.world == p.batcher.Snapshot()
    requires WorksOn(u, p.Runs(txs, ids, draws, ios)) && FreshCalls(s, CallsFrom(p.Runs(txs, ids, draws, ios), 0), last)
    modifies p.config, p.batcher, p.batcher.store, p.batcher.archive
    ensures p.batcher.Valid() && RunHandled(old(p.Runs(txs, ids, draws, ios)), |txs|, s.world, log)
    ensures IsWork(u, Start(s), steps)
    ensures var e := Ended(u, Start(s), steps);
            && e.sys.world == p.batcher.Snapshot()
            && |e.cuts| == |txs| && forall i :: 0 <= i < |txs| ==> e.cuts[i] == |log.done[i]|
  {
    ghost var y := p.Runs(txs, ids, draws, ios);
    r, log := p.Run(txs, ids, draws, ios, last);
    IsThere(u, y, last, s, log);
    RunSteps(u, y, last, s.world, log, Start(s), |txs|);
    ghost var before, e :| ComesTo(u, y, last, log, Start(s), before, e, |txs|);
    LastClose(u, Start(s), before, last);
    steps := before + [Other(Close(last))];
  }

  lemma {:induction false} LastClose(u: Setup, d: State, steps: seq<Step>, last: CloseIo)
    requires IsWork(u, d, steps) && last.nextBatchID !in Ended(u, d, steps).sys.drawn
    ensures var more, e := steps + [Other(Close(last))], Ended(u, d, steps);
            && IsWork(u, d, more)
            && Ended(u, d, more).sys.world == CloseOnce(u.env, e.sys.world, last)
            && Ended(u, d, more).cuts == e.cuts
  {
    var e := Ended(u, d, steps);
    OneStep(u, e, Other(Close(last)));
    WorkAppend(u, d, steps, e, [Other(Close(last))], Stepped(u, e, Other(Close(last))));
  }

  // ------------------------------------------------------ audited changes and records

  /** How many audited changes the first n transactions have. */
  function AuditedCount(tables: map<string, TableConfig>, txs: seq<Transaction>, n: nat): nat
    requires n <= |txs|
  {
    if n == 0 then 0 else AuditedCount(tables, txs, n - 1) + |AuditedIn(tables, txs[n - 1].changes)|
  }

  lemma {:induction false} ChangesCount(builder: Builder, tables: map<string, TableConfig>, txs: seq<Transaction>,
                                        n: nat)
    requires n <= |txs|
    ensures ChangeCount(WorkOf(PlanFor(builder, tables), txs), n) == AuditedCount(tables, txs, n)
  {
    if n > 0 {
      ChangesCount(builder, tables, txs, n - 1);
    }
  }

  /** r is a record of a change of transaction j. */
  ghost predicate TellsOfTx(builder: Builder, tables: map<string, TableConfig>, txs: seq<Transaction>, r: Record,
                            j: nat) {
    j < |txs| && exists c :: c in txs[j].changes && IsRecordOf(builder, tables, txs[j], c, r.body)
  }

  ghost predicate TellsOfSome(builder: Builder, tables: map<string, TableConfig>, txs: seq<Transaction>, r: Record) {
    exists j: nat :: TellsOfTx(builder, tables, txs, r, j)
  }

  /** Every record persisted is a record of a change of one of the transactions. */
  lemma {:induction false} PersistedTell(builder: Builder, tables: map<string, TableConfig>, txs: seq<Transaction>,
                                         t: Sys, cuts: seq<nat>, i: nat)
    requires StoredAs(WorkOf(PlanFor(builder, tables), txs), t, cuts) && i < |Persisted(t)|
    ensures TellsOfSome(builder, tables, txs, Persisted(t)[i])
  {
    var work := WorkOf(PlanFor(builder, tables), txs);
    var j, k := TakenItem(work, cuts, i);
    var change, r := AuditedIn(tables, txs[j].changes)[k], Persisted(t)[i];
    assert MadeOf(t.stamps, r, Taken(work, cuts)[i]);
    assert CanBe(builder, tables, txs[j], change, r.body);
    WorkMembers(tables, txs[j].changes, change);
    CanBeTells(builder, tables, txs[j], change, r.body);
    assert TellsOfTx(builder, tables, txs, r, j);
  }

  lemma {:induction false} AllTellOfTxs(builder: Builder, tables: map<string, TableConfig>, txs: seq<Transaction>,
                                        t: Sys, cuts: seq<nat>)
    requires StoredAs(WorkOf(PlanFor(builder, tables), txs), t, cuts)
    ensures forall r :: r in Persisted(t) ==> TellsOfSome(builder, tables, txs, r)
  {
    forall r | r in Persisted(t) ensures TellsOfSome(builder, tables, txs, r) {
      var i :| 0 <= i < |Persisted(t)| && Persisted(t)[i] == r;
      PersistedTell(builder, tables, txs, t, cuts, i);
    }
  }

  /**
   * Crash and resume for the processor, under a configuration that stays.  Of
   * the audited changes of all transactions up to the last one persisted, every
   * one has its record, once and in order, exactly if no life left a transaction
   * early, because a change could not be built or its own close failed, and every
   * checkpoint fell on the last audited change of a transaction.
   */
  lemma {:induction false} NothingSkipped(env: Env, maxEvents: nat, builder: Builder, tables: map<string, TableConfig>,
                                          log: LogFiles.Log, start: Position, batchID: string, now: nat,
                                          lives: seq<Life>) returns (legs: seq<Leg>)
    requires LogFiles.LogOk(log) && LogFiles.CanStart(log, start)
    requires IsHistory(env, maxEvents, LogReader(PlanFor(builder, tables), log), Initial(batchID, now), start, lives)
    ensures var rd, txs := LogReader(PlanFor(builder, tables), log), LogFiles.Reports(log, start);
            var work := WorkOf(PlanFor(builder, tables), txs);
            && |legs| == |lives| && AllTell(env, maxEvents, rd, Initial(batchID, now), start, lives, legs)
            && LegsOk(work, 0, legs)
            && var t, n := Final(env, maxEvents, rd, Initial(batchID, now), start, lives), |CutsOf(legs)|;
               && StoredAs(work, t, CutsOf(legs)) && StoreAfter(lives, t)
               && (forall r :: r in Persisted(t) ==> TellsOfSome(builder, tables, txs, r))
               && |Persisted(t)| <= AuditedCount(tables, txs, n)
               && (|Persisted(t)| == AuditedCount(tables, txs, n) <==>
                   forall leg :: leg in legs ==> Unbroken(work, leg))
  {
    legs := ResumeStores(env, maxEvents, PlanFor(builder, tables), log, start, batchID, now, lives);
    ChangesCount(builder, tables, LogFiles.Reports(log, start), |CutsOf(legs)|);
    AllTellOfTxs(builder, tables, LogFiles.Reports(log, start),
                 Final(env, maxEvents, LogReader(PlanFor(builder, tables), log), Initial(batchID, now), start, lives),
                 CutsOf(legs));
  }
}
