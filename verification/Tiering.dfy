/**
 * The retention job of internal/tiering/tiering.go.  Its method is shown to be
 * a run of the job's actions in System, so what is proved there about every
 * run holds for it.
 */
module Tiering {
  import opened Common
  import opened Records
  import opened Store
  import opened Archive
  import opened Batching
  import opened System
  import opened Moving

  /** What each step of the move of one batch meets. */
  datatype TierIo = TierIo(readOk: bool, write: WriteIo, indexOk: bool, purgeOk: bool, statusOk: bool, now: nat)

  datatype TierStep = Reading | Marshalling(recordID: string) | Archiving | Indexing | Purging | Marking

  datatype TierError = TierError(batchID: string, step: TierStep)

  datatype TierResult = TierResult(batchesTiered: nat, recordsPurged: nat, errors: seq<TierError>)

  /** One error for each record that does not encode; it does not stop the move. */
  function MarshalErrors(env: Env, b: string, rs: seq<Record>): seq<TierError> {
    if rs == [] then []
    else
      var last := rs[|rs| - 1];
      MarshalErrors(env, b, rs[..|rs| - 1]) +
      if env.lineJson(last).Some? then [] else [TierError(b, Marshalling(last.id))]
  }

  /** The step that stops a move which has read its batch, if any. */
  function StopError(objects: map<ObjectKey, Bytes>, b: string, io: TierIo): seq<TierError> {
    if !WriteOk(objects, ArchiveObject(b), io.write) then [TierError(b, Archiving)]
    else if !io.indexOk then [TierError(b, Indexing)]
    else if !io.purgeOk then [TierError(b, Purging)]
    else if !io.statusOk then [TierError(b, Marking)]
    else []
  }

  function MoveErrors(env: Env, objects: map<ObjectKey, Bytes>, b: string, listing: seq<Record>, io: TierIo)
    : seq<TierError>
  {
    if !io.readOk then [TierError(b, Reading)] else MarshalErrors(env, b, listing) + StopError(objects, b, io)
  }

  /** An error other than that of a single record is reported for batch b. */
  ghost predicate Reported(errors: seq<TierError>, b: string) {
    exists e :: e in errors && e.batchID == b && !e.step.Marshalling?
  }

  /** The first step that fails, and only that, is among the errors under its own name. */
  ghost predicate ReportsStop(errors: seq<TierError>, b: string, io: TierIo, archived: bool) {
    && (TierError(b, Reading) in errors <==> !io.readOk)
    && (TierError(b, Archiving) in errors <==> io.readOk && !archived)
    && (TierError(b, Indexing) in errors <==> io.readOk && archived && !io.indexOk)
    && (TierError(b, Purging) in errors <==> io.readOk && archived && io.indexOk && !io.purgeOk)
    && (TierError(b, Marking) in errors <==> io.readOk && archived && io.indexOk && io.purgeOk && !io.statusOk)
  }

  lemma {:induction false} MoveReportsStop(env: Env, objects: map<ObjectKey, Bytes>, b: string,
                                           listing: seq<Record>, io: TierIo)
    ensures ReportsStop(MoveErrors(env, objects, b, listing, io), b, io, WriteOk(objects, ArchiveObject(b), io.write))
  {
    MarshalErrorsAre(env, b, listing);
  }

  lemma {:induction false} MarshalErrorsAre(env: Env, b: string, rs: seq<Record>)
    ensures forall e :: e in MarshalErrors(env, b, rs) <==>
              e.batchID == b && e.step.Marshalling? &&
              exists r :: r in rs && r.id == e.step.recordID && env.lineJson(r).None?
  {
    if rs != [] {
      var init, last := rs[..|rs| - 1], rs[|rs| - 1];
      MarshalErrorsAre(env, b, init);
      assert rs == init + [last];
    }
  }

  /** A move reports the step that stopped it, and no such error if it completes. */
  lemma {:induction false} StopsReported(env: Env, s: Sys, b: string, listing: seq<Record>, io: TierIo)
    ensures var errs := MoveErrors(env, s.world.objects, b, listing, io);
            OnlyStops(errs, b, Completes(s, b, io))
  {
    MarshalErrorsAre(env, b, listing);
    var errs := MoveErrors(env, s.world.objects, b, listing, io);
    if !Completes(s, b, io) {
      assert errs[|errs| - 1] in errs;
    }
  }

  /** The index row the job writes. */
  function IndexEntry(b: string, now: nat): WormEntry {
    WormEntry(b, PathOf(ArchiveObject(b)), now, now)
  }

  /** The actions the move of batch b amounts to, up to the first failure. */
  function MoveActions(s: Sys, b: string, listing: seq<Record>, io: TierIo): seq<Action> {
    if !io.readOk then []
    else
      var start := [JobRead(b, listing), JobArchive(io.write)];
      if WriteOk(s.world.objects, ArchiveObject(b), io.write) then start + MoveRest(b, io) else start
  }

  function MoveRest(b: string, io: TierIo): seq<Action> {
    if !io.indexOk then [JobStop] else [JobIndex(IndexEntry(b, io.now))] + MoveTail(io)
  }

  function MoveTail(io: TierIo): seq<Action> {
    if !io.purgeOk then [JobStop] else [JobPurge, if io.statusOk then JobFinish else JobStop]
  }

  predicate Completes(s: Sys, b: string, io: TierIo) {
    io.readOk && WriteOk(s.world.objects, ArchiveObject(b), io.write) && io.indexOk && io.purgeOk && io.statusOk
  }

  /** The store and archive after the move, step by step as the code does it. */
  function Moved(env: Env, w: World, b: string, listing: seq<Record>, io: TierIo): World
    requires b in w.st.batches
  {
    if !io.readOk then w
    else
      var key := ArchiveObject(b);
      var archived := w.(objects := Written(w.objects, key, Jsonl(env, listing), io.write));
      if !WriteOk(w.objects, key, io.write) || !io.indexOk then archived
      else
        var indexed := archived.(st := w.st.(wormIndex := w.st.wormIndex[b := IndexEntry(b, io.now)]));
        if !io.purgeOk then indexed
        else
          var purged := indexed.(st := indexed.st.(records := WithoutBatch(indexed.st.records, b)));
          if !io.statusOk then purged
          else purged.(st := SetStatus(purged.st, b, "archived", Some(PathOf(key))))
  }

  /** The tail of a move, from the indexed batch on. */
  lemma {:induction false} TailIsRun(env: Env, s: Sys, b: string, io: TierIo)
    requires s.job.HasIndexed? && s.job.batchID == b && b in s.world.st.batches
    ensures && IsRun(env, s, MoveTail(io))
            && After(env, s, MoveTail(io)) == s.(
                 world := if !io.purgeOk then s.world
                          else
                            var purged := s.world.st.(records := WithoutBatch(s.world.st.records, b));
                            s.world.(st := if !io.statusOk then purged
                                           else SetStatus(purged, b, "archived", Some(PathOf(ArchiveObject(b))))),
                 job := Idle)
  {
    if !io.purgeOk {
      RunOf1(env, s, JobStop, []);
    } else {
      var t := Next(env, s, JobPurge);
      var last := if io.statusOk then JobFinish else JobStop;
      RunOf1(env, t, last, []);
      RunOf1(env, s, JobPurge, [last]);
      assert MoveTail(io) == [JobPurge] + [last];
    }
  }

  /** The move of one batch is a run of the job, and leaves the job idle. */
  lemma {:induction false} MoveIsRun(env: Env, s: Sys, b: string, listing: seq<Record>, io: TierIo)
    requires s.job == Idle && b in s.world.st.batches && IsListing(s.world.st.records, b, listing)
    ensures var run := MoveActions(s, b, listing, io);
            && IsRun(env, s, run)
            && After(env, s, run) == s.(world := Moved(env, s.world, b, listing, io))
  {
    if io.readOk {
      var t := Next(env, s, JobRead(b, listing));
      var u := Next(env, t, JobArchive(io.write));
      var run := MoveActions(s, b, listing, io);
      if !WriteOk(s.world.objects, ArchiveObject(b), io.write) {
        RunOf1(env, t, JobArchive(io.write), []);
        RunOf1(env, s, JobRead(b, listing), [JobArchive(io.write)]);
      } else {
        var rest := MoveRest(b, io);
        MoveRestIsRun(env, s, u, b, listing, io);
        RunOf1(env, t, JobArchive(io.write), rest);
        RunOf1(env, s, JobRead(b, listing), [JobArchive(io.write)] + rest);
        assert run == [JobRead(b, listing)] + ([JobArchive(io.write)] + rest);
      }
    }
  }

  lemma {:induction false} MoveRestIsRun(env: Env, s: Sys, u: Sys, b: string, listing: seq<Record>, io: TierIo)
    requires s.job == Idle && b in s.world.st.batches && io.readOk
    requires WriteOk(s.world.objects, ArchiveObject(b), io.write)
    requires u == s.(world := s.world.(objects := Written(s.world.objects, ArchiveObject(b), Jsonl(env, listing),
                                                          io.write)),
                     job := HasArchived(b, listing))
    ensures IsRun(env, u, MoveRest(b, io))
    ensures After(env, u, MoveRest(b, io)) == s.(world := Moved(env, s.world, b, listing, io))
  {
    if !io.indexOk {
      RunOf1(env, u, JobStop, []);
    } else {
      var e := JobIndex(IndexEntry(b, io.now));
      var v := Next(env, u, e);
      TailIsRun(env, v, b, io);
      RunOf1(env, u, e, MoveTail(io));
    }
  }

  // -------------------------------------------------------------- keeping count

  /** The batch is marked archived, and its row and its index row name the object its records are in. */
  ghost predicate IsFiled(batches: map<string, Batch>, index: map<string, WormEntry>, b: string) {
    && b in batches && b in index
    && batches[b].status == "archived" && batches[b].wormObjectKey == Some("archives/" + b + ".jsonl")
    && index[b].batchID == b && index[b].wormObjectKey == "archives/" + b + ".jsonl"
    && index[b].purgedAt == index[b].tieredAt
  }

  ghost predicate AllFiled(batches: map<string, Batch>, index: map<string, WormEntry>, bs: set<string>) {
    forall b :: b in bs ==> IsFiled(batches, index, b)
  }

  /** Index rows of other batches stay. */
  ghost predicate KeepsIndex(before: map<string, WormEntry>, after: map<string, WormEntry>, b: string) {
    forall c :: c in before && c != b ==> c in after && after[c] == before[c]
  }

  lemma {:induction false} MoreFiled(rows: map<string, Batch>, now: map<string, Batch>, index: map<string, WormEntry>,
                                     after: map<string, WormEntry>, bs: set<string>, b: string, isMoved: bool)
    requires AllFiled(rows, index, bs) && b !in bs && KeepsIndex(index, after, b)
    requires OnlyMoves(rows, now, if isMoved then {b} else {}) && (isMoved ==> IsFiled(now, after, b))
    ensures AllFiled(now, after, if isMoved then bs + {b} else bs)
  {
    forall c | c in bs ensures IsFiled(now, after, c) {
      assert IsFiled(rows, index, c);
    }
  }

  function Names(done: seq<(string, nat)>): set<string> {
    set i | 0 <= i < |done| :: done[i].0
  }

  ghost predicate Distinct(done: seq<(string, nat)>) {
    forall i, j :: 0 <= i < j < |done| ==> done[i].0 != done[j].0
  }

  lemma {:induction false} NamesSnoc(done: seq<(string, nat)>, d: (string, nat))
    ensures Names(done + [d]) == Names(done) + {d.0}
    ensures Distinct(done) && d.0 !in Names(done) ==> Distinct(done + [d])
  {
    var more := done + [d];
    assert more[|done|] == d;
    forall i | 0 <= i < |done| ensures done[i].0 in Names(more) {
      assert more[i] == done[i];
    }
  }

  /** The rows are the same but for those of `moved`, which are archived. */
  ghost predicate OnlyMoves(before: map<string, Batch>, after: map<string, Batch>, moved: set<string>) {
    && after.Keys == before.Keys && moved <= after.Keys
    && forall b :: b in after ==> if b in moved then after[b].status == "archived" else after[b] == before[b]
  }

  /** What stopped the move of b, and nothing else, is reported. */
  ghost predicate OnlyStops(errors: seq<TierError>, b: string, isMoved: bool) {
    (Reported(errors, b) <==> !isMoved) && forall c :: Reported(errors, c) ==> c == b
  }

  /** Of the batches taken up, exactly those not moved are reported, and no others. */
  ghost predicate Settled(taken: seq<string>, moved: set<string>, errors: seq<TierError>) {
    forall b :: b in taken <==> (b in moved || Reported(errors, b))
  }

  /** The state of the loop after the batches in `taken`. */
  ghost predicate Books(before: map<string, Batch>, now: map<string, Batch>, index: map<string, WormEntry>,
                        taken: seq<string>, done: seq<(string, nat)>, result: TierResult) {
    && AllFiled(now, index, Names(done))
    && result.batchesTiered == |done| && result.recordsPurged == Total(done)
    && Distinct(done) && OnlyMoves(before, now, Names(done))
    && Settled(taken, Names(done), result.errors)
    && forall b :: b in Names(done) ==> !Reported(result.errors, b)
  }

  /** Signed, and closed longer ago than the retention. */
  ghost predicate IsOld(batches: map<string, Batch>, now: nat, retention: nat, b: string) {
    b in batches && batches[b].status == "signed" && batches[b].closedAt + retention < now
  }

  /** When every old batch has been taken up. */
  lemma {:induction false} BooksClose(before: map<string, Batch>, rows: map<string, Batch>,
                                      index: map<string, WormEntry>, taken: seq<string>, done: seq<(string, nat)>,
                                      result: TierResult, now: nat, retention: nat)
    requires Books(before, rows, index, taken, done, result)
    requires forall b :: b in taken <==> IsOld(before, now, retention, b)
    ensures forall b :: b in Names(done) <==> IsOld(before, now, retention, b) && !Reported(result.errors, b)
    ensures forall b :: Reported(result.errors, b) ==> IsOld(before, now, retention, b)
  {
  }

  lemma {:induction false} ReportedSplit(e1: seq<TierError>, e2: seq<TierError>, b: string)
    ensures Reported(e1 + e2, b) <==> Reported(e1, b) || Reported(e2, b)
  {
    if Reported(e1, b) {
      var e :| e in e1 && e.batchID == b && !e.step.Marshalling?;
      assert e in e1 + e2;
    }
    if Reported(e2, b) {
      var e :| e in e2 && e.batchID == b && !e.step.Marshalling?;
      assert e in e1 + e2;
    }
  }

  /** One more batch taken up, reported or moved. */
  lemma {:induction false} BookOne(before: map<string, Batch>, rows: map<string, Batch>, now: map<string, Batch>,
                                   index: map<string, WormEntry>, after: map<string, WormEntry>,
                                   taken: seq<string>, done: seq<(string, nat)>, result: TierResult,
                                   b: string, purged: Option<nat>, more: seq<TierError>)
    requires Books(before, rows, index, taken, done, result) && b !in taken && KeepsIndex(index, after, b)
    requires OnlyMoves(rows, now, if purged.Some? then {b} else {}) && OnlyStops(more, b, purged.Some?)
    requires purged.Some? ==> IsFiled(now, after, b)
    ensures purged.None? ==> Books(before, now, after, taken + [b], done, result.(errors := result.errors + more))
    ensures purged.Some? ==>
              Books(before, now, after, taken + [b], done + [(b, purged.value)],
                    TierResult(result.batchesTiered + 1, result.recordsPurged + purged.value, result.errors + more))
  {
    MoreFiled(rows, now, index, after, Names(done), b, purged.Some?);
    forall c ensures Reported(result.errors + more, c) <==> Reported(result.errors, c) || Reported(more, c) {
      ReportedSplit(result.errors, more, c);
    }
    if purged.Some? {
      NamesSnoc(done, (b, purged.value));
      assert (done + [(b, purged.value)])[..|done|] == done;
    }
  }

  /** The move added to a run. */
  lemma {:induction false} MoveExtends(env: Env, s: Sys, run: seq<Action>, t: Sys, b: string,
                                       listing: seq<Record>, io: TierIo)
    requires IsRun(env, s, run) && NoClose(run) && t == After(env, s, run)
    requires t.job == Idle && b in t.world.st.batches && IsListing(t.world.st.records, b, listing)
    ensures var more := run + MoveActions(t, b, listing, io);
            IsRun(env, s, more) && NoClose(more) &&
            After(env, s, more) == t.(world := Moved(env, t.world, b, listing, io))
  {
    MoveIsRun(env, t, b, listing, io);
    RunAppend(env, s, run, MoveActions(t, b, listing, io));
  }

  function Total(done: seq<(string, nat)>): nat {
    if done == [] then 0 else Total(done[..|done| - 1]) + done[|done| - 1].1
  }

  /** A move changes the status of its own batch if it completes, and no row otherwise. */
  lemma {:induction false} MovedStatus(env: Env, s: Sys, b: string, listing: seq<Record>, io: TierIo)
    requires b in s.world.st.batches
    ensures OnlyMoves(s.world.st.batches, Moved(env, s.world, b, listing, io).st.batches,
                      if Completes(s, b, io) then {b} else {})
  {
  }

  // --------------------------------------------------------------- the service

  class Service {
    const env: Env
    const retention: nat
    const store: MemoryStore
    const archive: LocalDirArchiveStore

    constructor (env: Env, retention: int, store: MemoryStore, archive: LocalDirArchiveStore)
      ensures this.env == env && this.store == store && this.archive == archive
      ensures this.retention == if retention <= 0 then 90 * 24 * 3600 else retention
    {
      this.env, this.store, this.archive := env, store, archive;
      this.retention := if retention <= 0 then 90 * 24 * 3600 else retention;
    }

    /** s describes the store and archive this service works on. */
    ghost predicate Describes(s: Sys)
      reads store, archive
    {
      s.world.st == store.State() && s.world.objects == archive.objects
    }

    /** Step 1: one line per record that encodes; the others are reported and skipped. */
    method Serialize(b: string, records: seq<Record>) returns (buf: Bytes, errors: seq<TierError>)
      ensures buf == Jsonl(env, records) && errors == MarshalErrors(env, b, records)
    {
      buf, errors := [], [];
      for i := 0 to |records|
        invariant buf == Jsonl(env, records[..i]) && errors == MarshalErrors(env, b, records[..i])
      {
        assert records[..i + 1][..i] == records[..i];
        ghost var before := buf;
        var line := env.lineJson(records[i]);
        if line.Some? {
          buf := buf + line.value;
          buf := buf + [NEWLINE];
          Assoc(before, line.value, [NEWLINE]);
        } else {
          assert buf + [] == buf;
          errors := errors + [TierError(b, Marshalling(records[i].id))];
        }
      }
      assert records[..|records|] == records;
    }

    /** The five steps for one batch, stopping at the first that fails. */
    method MoveBatch(b: string, io: TierIo, ghost s: Sys)
      returns (purged: Option<nat>, errors: seq<TierError>, ghost listing: seq<Record>)
      requires store.Valid() && Describes(s) && b in store.batches
      modifies store, archive
      ensures store.Valid() && IsListing(s.world.st.records, b, listing)
      ensures Describes(s.(world := Moved(env, s.world, b, listing, io)))
      ensures purged == if Completes(s, b, io) then Some(|listing|) else None
      ensures errors == MoveErrors(env, s.world.objects, b, listing, io)
      ensures ReportsStop(errors, b, io, WriteOk(old(archive.objects), ArchiveObject(b), io.write))
      ensures purged.Some? ==>
                IsFiled(store.batches, store.wormIndex, b) && store.wormIndex[b].tieredAt == io.now &&
                ArchiveObject(b) in archive.objects && archive.objects[ArchiveObject(b)] == Jsonl(env, listing)
      ensures KeepsIndex(old(store.wormIndex), store.wormIndex, b)
    {
      var records := store.GetRecordsByBatchID(b);
      listing := records;
      MoveReportsStop(env, archive.objects, b, listing, io);
      if !io.readOk {
        return None, [TierError(b, Reading)], listing;
      }
      var buf;
      buf, errors := Serialize(b, records);
      var put := archive.PutArchive(b, buf, io.write);
      if put.Err? {
        return None, errors + [TierError(b, Archiving)], listing;
      }
      if !io.indexOk {
        return None, errors + [TierError(b, Indexing)], listing;
      }
      store.InsertWORMIndex(WormEntry(b, PathOf(ArchiveObject(b)), io.now, io.now));
      if !io.purgeOk {
        return None, errors + [TierError(b, Purging)], listing;
      }
      store.DeleteRecordsByBatchID(b);
      if !io.statusOk {
        return None, errors + [TierError(b, Marking)], listing;
      }
      var updated := store.UpdateBatchStatus(b, "archived", Some(PathOf(ArchiveObject(b))));
      return Some(|records|), errors, listing;
    }

    /** The store and archive are where `run`, without a close, takes s, and nothing else of s has changed. */
    ghost predicate Reached(s: Sys, run: seq<Action>)
      reads store, archive
    {
      && IsRun(env, s, run) && NoClose(run)
      && After(env, s, run) == s.(world := World(s.world.buffer, store.State(), archive.objects))
    }

    /** One turn of the loop. */
    method Advance(b: string, io: TierIo, ghost s: Sys, ghost run: seq<Action>)
      returns (purged: Option<nat>, errors: seq<TierError>, ghost run': seq<Action>)
      requires store.Valid() && s.job == Idle && Reached(s, run) && b in store.batches
      modifies store, archive
      ensures store.Valid() && Reached(s, run')
      ensures OnlyMoves(old(store.batches), store.batches, if purged.Some? then {b} else {})
      ensures purged.Some? ==>
                && NoneHot(store.records, b) && IsFiled(store.batches, store.wormIndex, b)
                && exists l :: IsListing(old(store.records), b, l) && |l| == purged.value
      ensures KeepsIndex(old(store.wormIndex), store.wormIndex, b)
      ensures OnlyStops(errors, b, purged.Some?)
    {
      ghost var t := After(env, s, run);
      ghost var listing;
      purged, errors, listing := MoveBatch(b, io, t);
      MoveExtends(env, s, run, t, b, listing, io);
      MovedStatus(env, t, b, listing, io);
      StopsReported(env, t, b, listing, io);
      run' := run + MoveActions(t, b, listing, io);
    }

    /** One turn of the loop and its share of the result. */
    method TakeUp(b: string, io: TierIo, ghost before: map<string, Batch>, ghost taken: seq<string>,
                  result: TierResult, ghost done: seq<(string, nat)>, ghost s: Sys, ghost run: seq<Action>)
      returns (result': TierResult, ghost run': seq<Action>, ghost done': seq<(string, nat)>)
      requires store.Valid() && s.job == Idle && Reached(s, run) && b in store.batches && b !in taken
      requires Books(before, store.batches, store.wormIndex, taken, done, result)
      modifies store, archive
      ensures store.Valid() && Reached(s, run')
      ensures Books(before, store.batches, store.wormIndex, taken + [b], done', result')
    {
      var purged, errors;
      ghost var rows, index := store.batches, store.wormIndex;
      purged, errors, run' := Advance(b, io, s, run);
      BookOne(before, rows, store.batches, index, store.wormIndex, taken, done, result, b, purged, errors);
      done' := done + if purged.Some? then [(b, purged.value)] else [];
      if purged.Some? {
        result' := TierResult(result.batchesTiered + 1, result.recordsPurged + purged.value, result.errors + errors);
      } else {
        result' := result.(errors := result.errors + errors);
        assert done' == done;
      }
    }

    /** The loop over the batches found. */
    method TierAll(batches: seq<string>, ios: nat -> TierIo, ghost s: Sys)
      returns (result: TierResult, ghost run: seq<Action>, ghost done: seq<(string, nat)>)
      requires store.Valid() && Describes(s) && s.job == Idle
      requires forall i :: 0 <= i < |batches| ==> batches[i] in store.batches
      requires forall i, j :: 0 <= i < j < |batches| ==> batches[i] != batches[j]
      modifies store, archive
      ensures store.Valid() && Reached(s, run)
      ensures Books(old(store.batches), store.batches, store.wormIndex, batches, done, result)
    {
      result := TierResult(0, 0, []);
      run, done := [], [];
      for i := 0 to |batches|
        invariant store.Valid() && Reached(s, run)
        invariant Books(old(store.batches), store.batches, store.wormIndex, batches[..i], done, result)
      {
        result, run, done := TakeUp(batches[i], ios(i), old(store.batches), batches[..i], result, done, s, run);
        assert batches[..i + 1] == batches[..i] + [batches[i]];
      }
      assert batches[..|batches|] == batches;
    }

    /**
     * A whole run of the job, whatever fails along it, is a run of the job's
     * actions; so by NoCloseUndisturbed it keeps everything proved of calm runs.
     * `done` names the batches moved completely, with their numbers of records:
     * they were old and signed and are archived now, the result counts them, and
     * every other old and signed batch has an error and the row it had.
     */
    method RunOnce(now: nat, ios: nat -> TierIo, ghost s: Sys)
      returns (result: TierResult, ghost run: seq<Action>, ghost done: seq<(string, nat)>)
      requires store.Valid() && Describes(s) && s.job == Idle
      modifies store, archive
      ensures store.Valid() && Reached(s, run)
      ensures result.batchesTiered == |done| && result.recordsPurged == Total(done)
      ensures Distinct(done) && OnlyMoves(old(store.batches), store.batches, Names(done))
      ensures AllFiled(store.batches, store.wormIndex, Names(done))
      ensures forall b :: b in Names(done) <==>
                b in old(store.batches) && old(store.batches)[b].status == "signed" &&
                old(store.batches)[b].closedAt + retention < now && !Reported(result.errors, b)
      ensures forall b :: Reported(result.errors, b) ==>
                b in old(store.batches) && old(store.batches)[b].status == "signed" &&
                old(store.batches)[b].closedAt + retention < now
    {
      var cutoff := if now >= retention then now - retention else 0;
      var batches := store.GetBatchesForTiering(cutoff);
      result, run, done := TierAll(batches, ios, s);
      BooksClose(old(store.batches), store.batches, store.wormIndex, batches, done, result, now, retention);
    }
  }
}
