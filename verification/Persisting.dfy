/**
 * What a run of the system persists, what of that is in the store, and what the
 * latest checkpoint points at.
 */
module Persisting {
  import opened Records
  import opened Store
  import opened Batching
  import opened System
  import opened Guarantees
  import opened Selection
  import opened Daemon

  // ------------------------------------------------- what a run persists

  /** The records written to the store, in order. */
  function Persisted(s: Sys): seq<Record> {
    FinishedRecords(s.finished) +
    if s.world.buffer.batchID in s.committed then s.committed[s.world.buffer.batchID] else []
  }

  lemma {:induction false} PairsPrefix(xs: seq<Record>, ys: seq<Record>)
    requires xs <= ys
    ensures Pairs(xs) <= Pairs(ys)
  {
  }

  lemma {:induction false} PersistedWithinAdded(s: Sys)
    requires Conserved(s) && BufferInv(s.world.buffer, s.stamps, s.drawn, s.committed)
    ensures Pairs(Persisted(s)) <= s.added
    ensures |FinishedRecords(s.finished)| <= |Persisted(s)|
  {
    PairsPrefix(Persisted(s), FinishedRecords(s.finished) + s.world.buffer.records);
  }

  lemma {:induction false} FinishedGrows(env: Env, s: Sys, actions: seq<Action>)
    requires IsRun(env, s, actions)
    ensures |FinishedRecords(s.finished)| <= |FinishedRecords(After(env, s, actions).finished)|
    decreases |actions|
  {
    if actions != [] {
      StepFinishes(env, s, actions[0]);
      FinishedGrows(env, Next(env, s, actions[0]), actions[1..]);
    }
  }

  lemma {:induction false} StepFinishes(env: Env, s: Sys, a: Action)
    requires Enabled(env, s, a)
    ensures |FinishedRecords(s.finished)| <= |FinishedRecords(Next(env, s, a).finished)|
  {
    var t := Next(env, s, a);
    if t.finished != s.finished {
      assert t.finished[..|t.finished| - 1] == s.finished;
    }
  }

  /** Stamps stay, and each appended record is stamped with the position it came with. */
  lemma {:induction false} StampsStay(env: Env, s: Sys, actions: seq<Action>)
    requires IsRun(env, s, actions) && NoCrash(actions)
    ensures forall id :: id in s.stamps ==>
              id in After(env, s, actions).stamps && After(env, s, actions).stamps[id] == s.stamps[id]
    decreases |actions|
  {
    if actions != [] {
      StampsStay(env, Next(env, s, actions[0]), actions[1..]);
    }
  }

  lemma {:induction false} HandedStamped(env: Env, s: Sys, actions: seq<Action>, i: nat)
    requires IsRun(env, s, actions) && NoCrash(actions) && i < |Handed(actions)|
    ensures |FedIn(actions)| == |Handed(actions)| && FedIn(actions)[i].0 == Handed(actions)[i].1
    ensures var stamps := After(env, s, actions).stamps; var id := Handed(actions)[i].0;
            id in stamps && stamps[id].pos == FedIn(actions)[i].1
    decreases |actions|
  {
    var a, rest := actions[0], actions[1..];
    FedCount(rest);
    if !a.Add? {
      HandedStamped(env, Next(env, s, a), rest, i);
    } else if i > 0 {
      HandedStamped(env, Next(env, s, a), rest, i - 1);
    } else {
      FirstStamped(env, s, a, rest);
    }
  }

  lemma {:induction false} FirstStamped(env: Env, s: Sys, a: Action, rest: seq<Action>)
    requires a.Add? && Enabled(env, s, a) && IsRun(env, Next(env, s, a), rest) && NoCrash(rest)
    ensures var stamps := After(env, Next(env, s, a), rest).stamps; a.id in stamps && stamps[a.id].pos == a.pos
  {
    StampsStay(env, Next(env, s, a), rest);
  }

  lemma {:induction false} FedCount(actions: seq<Action>)
    ensures |FedIn(actions)| == |Handed(actions)|
  {
    if actions != [] {
      FedCount(actions[1..]);
    }
  }

  // ----------------------------------------------------- what of it is in the store

  /** r is a record of finished batch i. */
  ghost predicate OfBatch(fs: seq<Finished>, r: Record, i: nat) {
    i < |fs| && r in fs[i].records
  }

  lemma {:induction false} FinishedMembers(fs: seq<Finished>, r: Record)
    ensures r in FinishedRecords(fs) <==> exists i: nat :: OfBatch(fs, r, i)
  {
    if fs != [] {
      var init, last := fs[..|fs| - 1], fs[|fs| - 1];
      FinishedMembers(init, r);
      OfBatchLast(fs, init, last, r);
    }
  }

  lemma {:induction false} OfBatchLast(fs: seq<Finished>, init: seq<Finished>, last: Finished, r: Record)
    requires fs == init + [last]
    ensures (exists i: nat :: OfBatch(fs, r, i)) <==> (exists i: nat :: OfBatch(init, r, i)) || r in last.records
  {
    if i: nat :| OfBatch(init, r, i) {
      assert OfBatch(fs, r, i);
    }
    if r in last.records {
      assert OfBatch(fs, r, |init|);
    }
    if i: nat :| OfBatch(fs, r, i) {
      assert i < |init| ==> OfBatch(init, r, i);
    }
  }

  /** The records persisted are those last written with the batches. */
  lemma {:induction false} PersistedMembers(env: Env, s: Sys, r: Record)
    requires FinishedInv(env, s.world, s.committed, s.finished)
    ensures r in Persisted(s) <==> exists b :: b in s.committed && r in s.committed[b]
  {
    FinishedMembers(s.finished, r);
    if r in FinishedRecords(s.finished) {
      var i: nat :| OfBatch(s.finished, r, i);
      assert FinishedOk(env, s.world, s.committed, s.finished[i]);
    }
    if b :| b in s.committed && r in s.committed[b] {
      if b != s.world.buffer.batchID {
        assert Accounted(s.finished, b);
        var i :| 0 <= i < |s.finished| && s.finished[i].batch.id == b;
        assert FinishedOk(env, s.world, s.committed, s.finished[i]);
        assert OfBatch(s.finished, r, i);
      }
    }
  }

  /** The store holds records persisted and no others, and each batch of them as a whole or not at all. */
  ghost predicate StoreHolds(s: Sys) {
    && (forall k :: k in s.world.st.records ==> s.world.st.records[k].id == k && s.world.st.records[k] in Persisted(s))
    && (forall r :: r in Persisted(s) ==>
          IsHot(s.world.st.records, r) || NoneHot(s.world.st.records, r.batchID))
  }

  ghost predicate IsHot(m: map<string, Record>, r: Record) {
    r.id in m && m[r.id] == r
  }

  lemma {:induction false} StoreIsPersisted(env: Env, s: Sys)
    requires Inv(env, s)
    ensures StoreHolds(s)
  {
    var m := s.world.st.records;
    forall k | k in m ensures m[k].id == k && m[k] in Persisted(s) {
      assert Filed(s.committed, m[k]);
      PersistedMembers(env, s, m[k]);
    }
    forall r | r in Persisted(s) ensures IsHot(m, r) || NoneHot(m, r.batchID) {
      PersistedMembers(env, s, r);
      var b :| b in s.committed && r in s.committed[b];
      assert Vouched(env, b, s.world.st.batches[b], s.committed[b]);
      assert Whole(m, b, s.committed[b]);
    }
  }

  /** Two records of different batches have different ids. */
  lemma {:induction false} BatchesApart(stamps: map<string, Stamp>, b: string, c: string,
                                        rs: seq<Record>, cs: seq<Record>)
    requires b != c && Stamped(b, rs) && Stamped(c, cs) && AllKnown(stamps, rs) && AllKnown(stamps, cs)
    ensures forall i, j :: 0 <= i < |rs| && 0 <= j < |cs| ==> rs[i].id != cs[j].id
  {
    forall i, j | 0 <= i < |rs| && 0 <= j < |cs| ensures rs[i].id != cs[j].id {
      assert Known(stamps, rs[i]) && Known(stamps, cs[j]);
    }
  }

  lemma {:induction false} DistinctAppend(xs: seq<Record>, ys: seq<Record>)
    requires DistinctIds(xs) && DistinctIds(ys) && forall x, y :: x in xs && y in ys ==> x.id != y.id
    ensures DistinctIds(xs + ys)
  {
  }

  /** Records of batch c, which is none of the first n finished ones, are not among theirs. */
  lemma {:induction false} ApartFromFinished(env: Env, s: Sys, n: nat, c: string)
    requires VouchInv(env, s.world.st.batches, s.committed) && StampInv(s.stamps, s.world.st.batches, s.committed)
    requires FinishedInv(env, s.world, s.committed, s.finished)
    requires n <= |s.finished| && c in s.committed
    requires forall i :: 0 <= i < n ==> s.finished[i].batch.id != c
    ensures forall x, y :: x in FinishedRecords(s.finished[..n]) && y in s.committed[c] ==> x.id != y.id
  {
    forall x, y | x in FinishedRecords(s.finished[..n]) && y in s.committed[c] ensures x.id != y.id {
      FinishedMembers(s.finished[..n], x);
      var i: nat :| OfBatch(s.finished[..n], x, i);
      ApartFrom(env, s, s.finished[i], c);
    }
  }

  lemma {:induction false} ApartFrom(env: Env, s: Sys, f: Finished, c: string)
    requires VouchInv(env, s.world.st.batches, s.committed) && StampInv(s.stamps, s.world.st.batches, s.committed)
    requires FinishedInv(env, s.world, s.committed, s.finished) && f in s.finished
    requires c in s.committed && f.batch.id != c
    ensures forall x, y :: x in f.records && y in s.committed[c] ==> x.id != y.id
  {
    var i :| 0 <= i < |s.finished| && s.finished[i] == f;
    assert FinishedOk(env, s.world, s.committed, s.finished[i]);
    BatchFacts(env, s, f.batch.id);
    BatchFacts(env, s, c);
    BatchesApart(s.stamps, f.batch.id, c, f.records, s.committed[c]);
  }

  lemma {:induction false} BatchFacts(env: Env, s: Sys, b: string)
    requires VouchInv(env, s.world.st.batches, s.committed) && StampInv(s.stamps, s.world.st.batches, s.committed)
    requires b in s.committed
    ensures Stamped(b, s.committed[b]) && AllKnown(s.stamps, s.committed[b]) && DistinctIds(s.committed[b])
  {
    assert Vouched(env, b, s.world.st.batches[b], s.committed[b]);
    assert BatchStamps(s.stamps, s.world.st.batches[b], s.committed[b]);
    KnownDistinct(s.stamps, b, s.committed[b]);
  }

  lemma {:induction false} FinishedDistinct(env: Env, s: Sys, n: nat)
    requires VouchInv(env, s.world.st.batches, s.committed) && StampInv(s.stamps, s.world.st.batches, s.committed)
    requires FinishedInv(env, s.world, s.committed, s.finished)
    requires n <= |s.finished|
    ensures DistinctIds(FinishedRecords(s.finished[..n]))
  {
    if n > 0 {
      var f := s.finished[n - 1];
      assert FinishedOk(env, s.world, s.committed, f);
      FinishedDistinct(env, s, n - 1);
      BatchFacts(env, s, f.batch.id);
      ApartFromFinished(env, s, n - 1, f.batch.id);
      DistinctAppend(FinishedRecords(s.finished[..n - 1]), f.records);
      OneMoreFinished(s.finished, n);
    }
  }

  lemma {:induction false} OneMoreFinished(fs: seq<Finished>, n: nat)
    requires 0 < n <= |fs|
    ensures FinishedRecords(fs[..n]) == FinishedRecords(fs[..n - 1]) + fs[n - 1].records
  {
    assert fs[..n][..n - 1] == fs[..n - 1];
  }

  /** Every record persisted has an id of its own. */
  lemma {:induction false} PersistedDistinct(env: Env, s: Sys)
    requires Inv(env, s)
    ensures DistinctIds(Persisted(s))
  {
    var cur, n := s.world.buffer.batchID, |s.finished|;
    assert s.finished[..n] == s.finished;
    FinishedDistinct(env, s, n);
    if cur in s.committed {
      forall i | 0 <= i < n ensures s.finished[i].batch.id != cur {
        assert FinishedOk(env, s.world, s.committed, s.finished[i]);
      }
      BatchFacts(env, s, cur);
      ApartFromFinished(env, s, n, cur);
      DistinctAppend(FinishedRecords(s.finished), s.committed[cur]);
    }
  }

  /** No batch has been purged: everything persisted is in the hot store. */
  ghost predicate AllInHot(s: Sys) {
    forall b :: b in s.committed ==> AllHot(s.world.st.records, s.committed[b])
  }

  ghost predicate NoPurge(actions: seq<Action>) {
    forall i :: 0 <= i < |actions| ==> !actions[i].JobPurge?
  }

  lemma {:induction false} CloseKeepsHot(env: Env, s: Sys, io: CloseIo)
    requires Inv(env, s) && AllInHot(s) && Persists(env, s.world.buffer, io)
    ensures AllInHot(AfterClose(env, s, io))
  {
    var t, b := AfterClose(env, s, io), s.world.buffer;
    CloseRewrites(env, s, io);
    forall c | c in t.committed ensures AllHot(t.world.st.records, t.committed[c]) {
      if c == b.batchID {
        WrittenIsHot(s.stamps, s.world.st.records, c, b.records);
      } else {
        OtherStays(env, s, t, BatchFor(env, b, io), c);
      }
    }
  }

  lemma {:induction false} StepKeepsHot(env: Env, s: Sys, a: Action)
    requires Inv(env, s) && AllInHot(s) && Enabled(env, s, a) && !a.JobPurge?
    ensures AllInHot(Next(env, s, a))
  {
    if a.Close? && Persists(env, s.world.buffer, a.io) {
      CloseKeepsHot(env, s, a.io);
    } else {
      KeepsRecords(env, s, a);
    }
  }

  /** Only a close that reaches the store and the purge change the records. */
  lemma {:induction false} KeepsRecords(env: Env, s: Sys, a: Action)
    requires Enabled(env, s, a) && !a.JobPurge? && (a.Close? ==> !Persists(env, s.world.buffer, a.io))
    ensures Next(env, s, a).world.st.records == s.world.st.records && Next(env, s, a).committed == s.committed
  {
  }

  lemma {:induction false} RunKeepsHot(env: Env, s: Sys, actions: seq<Action>)
    requires Inv(env, s) && AllInHot(s) && IsRun(env, s, actions) && NoPurge(actions)
    ensures AllInHot(After(env, s, actions))
    decreases |actions|
  {
    if actions != [] {
      StepKeepsInv(env, s, actions[0]);
      StepKeepsHot(env, s, actions[0]);
      RunKeepsHot(env, Next(env, s, actions[0]), actions[1..]);
    }
  }

  /** Then the store holds exactly the records persisted. */
  lemma {:induction false} HotIsPersisted(env: Env, s: Sys)
    requires Inv(env, s) && AllInHot(s)
    ensures forall r :: r in Persisted(s) ==> IsHot(s.world.st.records, r)
  {
    forall r | r in Persisted(s) ensures IsHot(s.world.st.records, r) {
      PersistedMembers(env, s, r);
      var b :| b in s.committed && r in s.committed[b];
      var i :| 0 <= i < |s.committed[b]| && s.committed[b][i] == r;
    }
  }

  // ------------------------------------------------- close times and checkpoints

  /** Finished batches were closed one after another, and the open one, if written, after them. */
  ghost predicate ClockInv(finished: seq<Finished>, batches: map<string, Batch>, cur: string) {
    && (forall i, j :: 0 <= i < j < |finished| ==> finished[i].batch.closedAt < finished[j].batch.closedAt)
    && (cur in batches ==> forall i :: 0 <= i < |finished| ==> finished[i].batch.closedAt < batches[cur].closedAt)
  }

  ghost predicate Clock(s: Sys) {
    ClockInv(s.finished, s.world.st.batches, s.world.buffer.batchID)
  }

  /** A close that writes a batch does so later than every close before it. */
  ghost predicate Later(env: Env, s: Sys, a: Action) {
    a.Close? && Persists(env, s.world.buffer, a.io) ==>
      forall b :: b in s.world.st.batches ==> s.world.st.batches[b].closedAt < a.io.closedAt
  }

  ghost predicate AllLater(env: Env, s: Sys, actions: seq<Action>)
    requires IsRun(env, s, actions)
    decreases |actions|
  {
    actions == [] || (Later(env, s, actions[0]) && AllLater(env, Next(env, s, actions[0]), actions[1..]))
  }

  lemma {:induction false} FinishedEarlier(env: Env, s: Sys, i: nat)
    requires FinishedInv(env, s.world, s.committed, s.finished) && i < |s.finished|
    ensures var b := s.finished[i].batch;
            b.id in s.world.st.batches && s.world.st.batches[b.id].closedAt == b.closedAt
  {
    assert FinishedOk(env, s.world, s.committed, s.finished[i]);
  }

  /** One more batch, closed after all finished ones. */
  lemma {:induction false} ClockFinish(finished: seq<Finished>, f: Finished, batches: map<string, Batch>, next: string)
    requires forall i, j :: 0 <= i < j < |finished| ==> finished[i].batch.closedAt < finished[j].batch.closedAt
    requires forall i :: 0 <= i < |finished| ==> finished[i].batch.closedAt < f.batch.closedAt
    requires next !in batches
    ensures ClockInv(finished + [f], batches, next)
  {
  }

  lemma {:induction false} AllEarlier(env: Env, s: Sys, io: CloseIo)
    requires FinishedInv(env, s.world, s.committed, s.finished)
    requires forall b :: b in s.world.st.batches ==> s.world.st.batches[b].closedAt < io.closedAt
    ensures forall i :: 0 <= i < |s.finished| ==> s.finished[i].batch.closedAt < io.closedAt
  {
    forall i | 0 <= i < |s.finished| ensures s.finished[i].batch.closedAt < io.closedAt {
      FinishedEarlier(env, s, i);
    }
  }

  lemma {:induction false} CloseKeepsClock(env: Env, s: Sys, io: CloseIo)
    requires FinishedInv(env, s.world, s.committed, s.finished) && Clock(s) && Later(env, s, Close(io))
    requires s.world.st.batches.Keys <= s.drawn && s.world.buffer.batchID in s.drawn && io.nextBatchID !in s.drawn
    ensures Clock(AfterClose(env, s, io))
  {
    var t, b := AfterClose(env, s, io), s.world.buffer;
    if Persists(env, b, io) {
      var batch := BatchFor(env, b, io);
      AllEarlier(env, s, io);
      assert t.world.st.batches == s.world.st.batches[b.batchID := batch];
      if Closes(env, s.world, io) {
        ClockFinish(s.finished, Finished(batch, b.records, true), t.world.st.batches, io.nextBatchID);
      }
    }
  }

  lemma {:induction false} CrashKeepsClock(s: Sys, b: string, now: nat)
    requires Clock(s) && s.world.st.batches.Keys == s.committed.Keys && s.committed.Keys <= s.drawn && b !in s.drawn
    ensures Clock(AfterCrash(s, b, now))
  {
    var cur := s.world.buffer.batchID;
    if cur in s.committed {
      ClockFinish(s.finished, Finished(s.world.st.batches[cur], s.committed[cur], false), s.world.st.batches, b);
    }
  }

  lemma {:induction false} JobKeepsClock(env: Env, s: Sys, a: Action)
    requires Clock(s) && Enabled(env, s, a) && !a.Close? && !a.Crash?
    ensures Clock(Next(env, s, a))
  {
  }

  lemma {:induction false} StepKeepsClock(env: Env, s: Sys, a: Action)
    requires Inv(env, s) && Clock(s) && Enabled(env, s, a) && Later(env, s, a)
    ensures Clock(Next(env, s, a))
  {
    if a.Close? {
      CloseKeepsClock(env, s, a.io);
    } else if a.Crash? {
      CrashKeepsClock(s, a.batchID, a.now);
    } else {
      JobKeepsClock(env, s, a);
    }
  }

  lemma {:induction false} RunKeepsClock(env: Env, s: Sys, actions: seq<Action>)
    requires Inv(env, s) && Clock(s) && IsRun(env, s, actions) && AllLater(env, s, actions)
    ensures Clock(After(env, s, actions))
    decreases |actions|
  {
    if actions != [] {
      StepKeepsInv(env, s, actions[0]);
      StepKeepsClock(env, s, actions[0]);
      RunKeepsClock(env, Next(env, s, actions[0]), actions[1..]);
    }
  }

  /** What GetLatestCheckpoint returns: the position of a batch that none was closed after. */
  ghost predicate IsCheckpoint(st: StoreState, b: string) {
    b in st.batches && forall c :: c in st.batches ==> st.batches[c].closedAt <= st.batches[b].closedAt
  }

  /** The latest checkpoint belongs to the open batch if that was written, and to the last finished one otherwise. */
  lemma {:induction false} LatestBatch(env: Env, s: Sys, b: string)
    requires FinishedInv(env, s.world, s.committed, s.finished) && Clock(s)
    requires s.world.st.batches.Keys == s.committed.Keys && IsCheckpoint(s.world.st, b)
    ensures s.world.buffer.batchID in s.committed ==> b == s.world.buffer.batchID
    ensures s.world.buffer.batchID !in s.committed ==>
              |s.finished| > 0 && s.finished[|s.finished| - 1].batch.id == b
  {
    var cur, n := s.world.buffer.batchID, |s.finished|;
    if b != cur {
      assert Accounted(s.finished, b);
      var i :| 0 <= i < n && s.finished[i].batch.id == b;
      FinishedEarlier(env, s, i);
      FinishedEarlier(env, s, n - 1);
    }
  }

  lemma {:induction false} LastOf(xs: seq<Record>, ys: seq<Record>, zs: seq<Record>)
    requires zs == xs + ys && ys != []
    ensures zs != [] && zs[|zs| - 1] == ys[|ys| - 1]
  {
  }

  /** The last record persisted is the last of the open batch, if that was written, or of the last finished one. */
  lemma {:induction false} LastPersisted(env: Env, s: Sys, b: string)
    requires FinishedInv(env, s.world, s.committed, s.finished) && b in s.committed && s.committed[b] != []
    requires if s.world.buffer.batchID in s.committed then b == s.world.buffer.batchID
             else |s.finished| > 0 && s.finished[|s.finished| - 1].batch.id == b
    ensures var rs := Persisted(s); rs != [] && rs[|rs| - 1] == s.committed[b][|s.committed[b]| - 1]
  {
    var n := |s.finished|;
    if s.world.buffer.batchID in s.committed {
      LastOf(FinishedRecords(s.finished), s.committed[b], Persisted(s));
    } else {
      assert FinishedOk(env, s.world, s.committed, s.finished[n - 1]);
      assert s.finished[n - 1].records == s.committed[b];
      assert Persisted(s) == FinishedRecords(s.finished);
      LastOf(FinishedRecords(s.finished[..n - 1]), s.committed[b], FinishedRecords(s.finished));
    }
  }

  /** The latest checkpoint is the position of the last record persisted. */
  lemma {:induction false} CheckpointIsLast(env: Env, s: Sys, b: string)
    requires FinishedInv(env, s.world, s.committed, s.finished) && Clock(s)
    requires s.world.st.batches.Keys == s.committed.Keys && IsCheckpoint(s.world.st, b)
    requires StampInv(s.stamps, s.world.st.batches, s.committed)
    ensures LastAt(s.stamps, Persisted(s), s.world.st.batches[b].position)
  {
    LatestBatch(env, s, b);
    assert BatchStamps(s.stamps, s.world.st.batches[b], s.committed[b]);
    LastPersisted(env, s, b);
  }

  // --------------------------------------------------------------- one life

  /** A daemon that has just started on this store. */
  ghost predicate Started(env: Env, s: Sys) {
    Inv(env, s) && Clock(s) && s.world.buffer.records == [] && s.world.buffer.batchID !in s.committed
  }

  /** Records that are a prefix of earlier records followed by newly handed ones. */
  lemma {:induction false} SplitPairs(rs: seq<Record>, before: seq<Record>, handed: seq<(string, RecordBody)>)
    requires Pairs(rs) <= Pairs(before) + handed && |before| <= |rs|
    ensures |rs| <= |before| + |handed|
    ensures forall i :: 0 <= i < |before| ==> rs[i].id == before[i].id && rs[i].body == before[i].body
    ensures forall k :: 0 <= k < |rs| - |before| ==>
              rs[|before| + k].id == handed[k].0 && rs[|before| + k].body == handed[k].1
  {
    var all := Pairs(before) + handed;
    forall i | 0 <= i < |rs| ensures (rs[i].id, rs[i].body) == all[i] {
      assert Pairs(rs)[i] == all[i];
    }
    forall i | 0 <= i < |before| ensures rs[i].id == before[i].id && rs[i].body == before[i].body {
      assert all[i] == Pairs(before)[i];
    }
    forall k | 0 <= k < |rs| - |before|
      ensures rs[|before| + k].id == handed[k].0 && rs[|before| + k].body == handed[k].1
    {
      assert all[|before| + k] == handed[k];
    }
  }

  lemma {:induction false} LifeAdds(env: Env, s: Sys, actions: seq<Action>)
    requires Started(env, s) && IsRun(env, s, actions) && NoCrash(actions)
    ensures var t := After(env, s, actions);
            Pairs(Persisted(t)) <= Pairs(Persisted(s)) + Handed(actions) && |Persisted(s)| <= |Persisted(t)|
  {
    var t := After(env, s, actions);
    RunKeepsInv(env, s, actions);
    AddedIsHanded(env, s, actions);
    FinishedGrows(env, s, actions);
    PersistedWithinAdded(t);
    assert Persisted(s) == FinishedRecords(s.finished) + s.world.buffer.records;
  }

  /** The k-th record handed over, as found in the store, is the one made of the k-th append. */
  lemma {:induction false} LifeRecord(env: Env, s: Sys, actions: seq<Action>, r: Record, k: nat)
    requires IsRun(env, s, actions) && NoCrash(actions) && k < |Handed(actions)|
    requires r.id == Handed(actions)[k].0 && r.body == Handed(actions)[k].1
    ensures k < |FedIn(actions)| && IsFed(After(env, s, actions).stamps, r, FedIn(actions)[k])
  {
    HandedStamped(env, s, actions, k);
  }

  lemma {:induction false} LifeRecords(env: Env, s: Sys, actions: seq<Action>, stamps: map<string, Stamp>,
                                       before: seq<Record>, rs: seq<Record>, fed: seq<Fed>)
    requires IsRun(env, s, actions) && NoCrash(actions) && stamps == After(env, s, actions).stamps
    requires fed == FedIn(actions) && |before| <= |rs| && Pairs(rs) <= Pairs(before) + Handed(actions)
    ensures Grown(stamps, before, rs, fed)
  {
    SplitPairs(rs, before, Handed(actions));
    FedCount(actions);
    forall k | 0 <= k < |rs| - |before| ensures IsFed(stamps, rs[|before| + k], fed[k]) {
      LifeRecord(env, s, actions, rs[|before| + k], k);
    }
  }

  /** What a run from a fresh start persists: what was there, then what it was fed, in order, up to some point. */
  lemma {:induction false} LifePersists(env: Env, s: Sys, actions: seq<Action>,
                                        before: seq<Record>, rs: seq<Record>, fed: seq<Fed>)
    requires Started(env, s) && IsRun(env, s, actions) && NoCrash(actions)
    requires before == Persisted(s) && rs == Persisted(After(env, s, actions)) && fed == FedIn(actions)
    ensures Grown(After(env, s, actions).stamps, before, rs, fed)
  {
    LifeAdds(env, s, actions);
    LifeRecords(env, s, actions, After(env, s, actions).stamps, before, rs, fed);
  }

  lemma {:induction false} CrashPersists(t: Sys, b: string, now: nat)
    requires t.world.st.batches.Keys == t.committed.Keys && b !in t.committed
    ensures Persisted(AfterCrash(t, b, now)) == Persisted(t)
  {
    var u := AfterCrash(t, b, now);
    if t.world.buffer.batchID in t.committed {
      assert u.finished[..|u.finished| - 1] == t.finished;
    } else {
      assert u.finished == t.finished;
    }
  }

  lemma {:induction false} CrashRestarts(env: Env, t: Sys, b: string, now: nat)
    requires Inv(env, t) && Clock(t) && b !in t.drawn
    ensures var u := AfterCrash(t, b, now);
            Started(env, u) && Persisted(u) == Persisted(t) && u.stamps == t.stamps
  {
    CrashKeepsInv(env, t, b, now);
    CrashKeepsClock(t, b, now);
    CrashPersists(t, b, now);
  }
}
