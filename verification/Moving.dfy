/**
 * What the tiering job keeps.  A close may write a batch again while the job
 * moves it; that does no harm unless it writes a record the job has not read.
 */
module Moving {
  import opened Common
  import opened Records
  import opened Archive
  import opened Batching
  import opened System

  // ------------------------------------------------------------ the one overlap

  /** The close writes a record of the job's batch that is not in what the job has read and moves. */
  ghost predicate Outruns(env: Env, s: Sys, a: Action) {
    && a.Close? && Persists(env, s.world.buffer, a.io)
    && s.job != Idle && s.job.batchID == s.world.buffer.batchID
    && (s.job.HasRead? ==> ArchiveObject(s.job.batchID) !in s.world.objects)
    && exists r :: r in s.world.buffer.records && r !in s.job.listing
  }

  /** It does so before the purge or, if `toEnd`, before the job is done with the batch. */
  ghost predicate Disturbs(env: Env, s: Sys, a: Action, toEnd: bool) {
    Outruns(env, s, a) && (toEnd || !s.job.HasPurged?)
  }

  ghost predicate Undisturbed(env: Env, s: Sys, actions: seq<Action>, toEnd: bool)
    requires IsRun(env, s, actions)
    decreases |actions|
  {
    actions == [] ||
    (!Disturbs(env, s, actions[0], toEnd) && Undisturbed(env, Next(env, s, actions[0]), actions[1..], toEnd))
  }

  // -------------------------------------------------------------- the invariant

  ghost predicate Archived(env: Env, objects: map<ObjectKey, Bytes>, b: string, rs: seq<Record>) {
    ArchiveObject(b) in objects && objects[ArchiveObject(b)] == Jsonl(env, rs)
  }

  /** The batch is in the hot store, or in the archive, as a whole. */
  ghost predicate Placed(env: Env, w: World, b: string, rs: seq<Record>) {
    AllHot(w.st.records, rs) || Archived(env, w.objects, b, rs)
  }

  ghost predicate PlacesInv(env: Env, w: World, committed: map<string, seq<Record>>) {
    forall b :: b in committed ==> Placed(env, w, b, committed[b])
  }

  /** A batch marked archived is in the archive. */
  ghost predicate MovedInv(env: Env, batches: map<string, Batch>, objects: map<ObjectKey, Bytes>,
                           committed: map<string, seq<Record>>) {
    forall b :: b in committed && b in batches && batches[b].status == "archived" ==>
      Archived(env, objects, b, committed[b])
  }

  ghost predicate JobInv(env: Env, job: Job, objects: map<ObjectKey, Bytes>,
                         committed: map<string, seq<Record>>, toEnd: bool) {
    match job
    case Idle => true
    case HasRead(b, listing) => b in committed && (listing == committed[b] || ArchiveObject(b) in objects)
    case HasArchived(b, listing) => b in committed && listing == committed[b] && Archived(env, objects, b, listing)
    case HasIndexed(b, listing) => b in committed && listing == committed[b] && Archived(env, objects, b, listing)
    case HasPurged(b, listing) =>
      b in committed && (toEnd ==> listing == committed[b] && Archived(env, objects, b, listing))
  }

  ghost predicate MoveInv(env: Env, s: Sys, toEnd: bool) {
    && PlacesInv(env, s.world, s.committed)
    && JobInv(env, s.job, s.world.objects, s.committed, toEnd)
    && (toEnd ==> MovedInv(env, s.world.st.batches, s.world.objects, s.committed))
  }

  // --------------------------------------------------------------------- closes

  /** Nothing but the old records, in their places: the list is the old one. */
  lemma {:induction false} NothingNew(b: string, before: seq<Record>, rs: seq<Record>)
    requires Stamped(b, rs) && before <= rs && forall r :: r in rs ==> r in before
    ensures rs == before
  {
    if rs != [] {
      var last := rs[|rs| - 1];
      assert last in before;
      var j :| 0 <= j < |before| && before[j] == last;
      assert rs[j] == last;
    }
  }

  /** An archive that only grows. */
  ghost predicate Grows(objects: map<ObjectKey, Bytes>, grown: map<ObjectKey, Bytes>) {
    forall k :: k in objects ==> k in grown && grown[k] == objects[k]
  }

  lemma {:induction false} CloseKeepsJob(env: Env, s: Sys, io: CloseIo, toEnd: bool)
    requires JobInv(env, s.job, s.world.objects, s.committed, toEnd)
    requires BufferInv(s.world.buffer, s.stamps, s.drawn, s.committed)
    requires Persists(env, s.world.buffer, io) && !Disturbs(env, s, Close(io), toEnd)
    ensures var t := AfterClose(env, s, io); JobInv(env, t.job, t.world.objects, t.committed, toEnd)
  {
    var b, j, t := s.world.buffer, s.job, AfterClose(env, s, io);
    assert t.committed == s.committed[b.batchID := b.records] && t.job == j;
    assert Grows(s.world.objects, t.world.objects);
    if j != Idle && j.batchID == b.batchID && !(j.HasRead? && ArchiveObject(j.batchID) in s.world.objects) &&
       (toEnd || !j.HasPurged?)
    {
      NothingNew(b.batchID, s.committed[b.batchID], b.records);
      assert t.committed == s.committed;
    }
    JobFrame(env, j, s.world.objects, t.world.objects, s.committed, t.committed, toEnd);
  }

  /** The job's invariant stands while its batch stays as it is, or there is an object in its way already. */
  lemma {:induction false} JobFrame(env: Env, job: Job, objects: map<ObjectKey, Bytes>, grown: map<ObjectKey, Bytes>,
                                    committed: map<string, seq<Record>>, after: map<string, seq<Record>>, toEnd: bool)
    requires JobInv(env, job, objects, committed, toEnd) && Grows(objects, grown)
    requires job != Idle ==> job.batchID in committed && job.batchID in after
    requires job != Idle ==>
               || after[job.batchID] == committed[job.batchID]
               || (job.HasRead? && ArchiveObject(job.batchID) in objects)
               || (job.HasPurged? && !toEnd)
    ensures JobInv(env, job, grown, after, toEnd)
  {
  }

  lemma {:induction false} CloseKeepsPlaces(env: Env, s: Sys, io: CloseIo)
    requires Inv(env, s) && PlacesInv(env, s.world, s.committed) && Persists(env, s.world.buffer, io)
    ensures var t := AfterClose(env, s, io); PlacesInv(env, t.world, t.committed)
  {
    var t, b, batch := AfterClose(env, s, io), s.world.buffer, BatchFor(env, s.world.buffer, io);
    CloseRewrites(env, s, io);
    forall c | c in t.committed ensures Placed(env, t.world, c, t.committed[c]) {
      if c == b.batchID {
        WrittenIsHot(s.stamps, s.world.st.records, c, b.records);
      } else {
        assert Placed(env, s.world, c, s.committed[c]);
        OtherStays(env, s, t, batch, c);
      }
    }
  }

  lemma {:induction false} CloseKeepsMoved(env: Env, s: Sys, io: CloseIo)
    requires MovedInv(env, s.world.st.batches, s.world.objects, s.committed) && Persists(env, s.world.buffer, io)
    ensures var t := AfterClose(env, s, io); MovedInv(env, t.world.st.batches, t.world.objects, t.committed)
  {
  }

  lemma {:induction false} CloseKeepsMove(env: Env, s: Sys, io: CloseIo, toEnd: bool)
    requires Inv(env, s) && MoveInv(env, s, toEnd) && !Disturbs(env, s, Close(io), toEnd)
    ensures MoveInv(env, AfterClose(env, s, io), toEnd)
  {
    if Persists(env, s.world.buffer, io) {
      CloseKeepsJob(env, s, io, toEnd);
      CloseKeepsPlaces(env, s, io);
      if toEnd {
        CloseKeepsMoved(env, s, io);
      }
    } else {
      var t := AfterClose(env, s, io);
      assert t.world.st == s.world.st && t.world.objects == s.world.objects;
      SameMove(env, s, t, toEnd);
    }
  }

  /** The invariant does not speak of the buffer or the history. */
  lemma {:induction false} SameMove(env: Env, s: Sys, t: Sys, toEnd: bool)
    requires MoveInv(env, s, toEnd) && t.committed == s.committed
    requires t.world.st == s.world.st && t.world.objects == s.world.objects
    requires JobInv(env, t.job, t.world.objects, t.committed, toEnd)
    ensures MoveInv(env, t, toEnd)
  {
    forall b | b in t.committed ensures Placed(env, t.world, b, t.committed[b]) {
      assert Placed(env, s.world, b, s.committed[b]);
    }
  }

  // -------------------------------------------------------------------- the job

  /** The job reads the whole batch, or there is an archive object already. */
  lemma {:induction false} ReadKeepsMove(env: Env, s: Sys, b: string, listing: seq<Record>, toEnd: bool)
    requires Inv(env, s) && MoveInv(env, s, toEnd) && Enabled(env, s, JobRead(b, listing))
    ensures MoveInv(env, s.(job := HasRead(b, listing)), toEnd)
  {
    assert Placed(env, s.world, b, s.committed[b]);
    if AllHot(s.world.st.records, s.committed[b]) {
      ListingIsBatch(env, s, b, listing);
    }
    SameMove(env, s, s.(job := HasRead(b, listing)), toEnd);
  }

  lemma {:induction false} GrowthKeepsPlaces(env: Env, w: World, grown: map<ObjectKey, Bytes>,
                                             committed: map<string, seq<Record>>)
    requires PlacesInv(env, w, committed) && Grows(w.objects, grown)
    ensures PlacesInv(env, w.(objects := grown), committed)
  {
    forall c | c in committed ensures Placed(env, w.(objects := grown), c, committed[c]) {
      assert Placed(env, w, c, committed[c]);
    }
  }

  /** If the write succeeded there was no object before, so what was read is the whole batch. */
  lemma {:induction false} ArchiveKeepsMove(env: Env, s: Sys, write: WriteIo, toEnd: bool)
    requires MoveInv(env, s, toEnd) && s.job.HasRead?
    ensures MoveInv(env, AfterArchive(env, s, write), toEnd)
  {
    var key, data := ArchiveObject(s.job.batchID), Jsonl(env, s.job.listing);
    GrowthKeepsPlaces(env, s.world, Written(s.world.objects, key, data, write), s.committed);
  }

  /** The purge takes only what the archive holds. */
  lemma {:induction false} PurgeKeepsMove(env: Env, s: Sys, toEnd: bool)
    requires Inv(env, s) && MoveInv(env, s, toEnd) && s.job.HasIndexed?
    ensures MoveInv(env, AfterPurge(s), toEnd)
  {
    var t, b := AfterPurge(s), s.job.batchID;
    PurgeKeepsWhole(env, s.world.st.records, s.world.st.batches, s.committed, b);
    forall c | c in s.committed ensures Placed(env, t.world, c, s.committed[c]) {
      assert Placed(env, s.world, c, s.committed[c]);
    }
  }

  lemma {:induction false} FinishKeepsMove(env: Env, s: Sys, toEnd: bool)
    requires MoveInv(env, s, toEnd) && s.job.HasPurged? && s.job.batchID in s.world.st.batches
    ensures MoveInv(env, AfterFinish(s), toEnd)
  {
    var t := AfterFinish(s);
    forall c | c in s.committed ensures Placed(env, t.world, c, s.committed[c]) {
      assert Placed(env, s.world, c, s.committed[c]);
    }
  }

  lemma {:induction false} JobKeepsMove(env: Env, s: Sys, a: Action, toEnd: bool)
    requires Inv(env, s) && MoveInv(env, s, toEnd) && Enabled(env, s, a) && IsJobStep(a)
    ensures MoveInv(env, Next(env, s, a), toEnd)
  {
    match a
    case JobRead(b, listing) => ReadKeepsMove(env, s, b, listing, toEnd);
    case JobArchive(write) => ArchiveKeepsMove(env, s, write, toEnd);
    case JobIndex(entry) => IndexKeepsMove(env, s, entry, toEnd);
    case JobPurge => PurgeKeepsMove(env, s, toEnd);
    case JobFinish => FinishKeepsMove(env, s, toEnd);
    case JobStop => SameMove(env, s, Next(env, s, a), toEnd);
  }

  lemma {:induction false} IndexKeepsMove(env: Env, s: Sys, entry: WormEntry, toEnd: bool)
    requires MoveInv(env, s, toEnd) && s.job.HasArchived?
    ensures MoveInv(env, AfterIndex(s, entry), toEnd)
  {
    var t := AfterIndex(s, entry);
    forall c | c in s.committed ensures Placed(env, t.world, c, s.committed[c]) {
      assert Placed(env, s.world, c, s.committed[c]);
    }
  }

  // ------------------------------------------------------------------ whole runs

  lemma {:induction false} StepKeepsMove(env: Env, s: Sys, a: Action, toEnd: bool)
    requires Inv(env, s) && MoveInv(env, s, toEnd) && Enabled(env, s, a) && !Disturbs(env, s, a, toEnd)
    ensures MoveInv(env, Next(env, s, a), toEnd)
  {
    if a.Close? {
      CloseKeepsMove(env, s, a.io, toEnd);
    } else if IsJobStep(a) {
      JobKeepsMove(env, s, a, toEnd);
    } else {
      SameMove(env, s, Next(env, s, a), toEnd);
    }
  }

  /** An undisturbed run keeps both invariants. */
  lemma {:induction false} UndisturbedKeeps(env: Env, s: Sys, actions: seq<Action>, toEnd: bool)
    requires Inv(env, s) && MoveInv(env, s, toEnd)
    requires IsRun(env, s, actions) && Undisturbed(env, s, actions, toEnd)
    ensures Inv(env, After(env, s, actions)) && MoveInv(env, After(env, s, actions), toEnd)
    decreases |actions|
  {
    if actions != [] {
      StepKeepsInv(env, s, actions[0]);
      StepKeepsMove(env, s, actions[0], toEnd);
      UndisturbedKeeps(env, Next(env, s, actions[0]), actions[1..], toEnd);
    }
  }

  ghost predicate NoClose(actions: seq<Action>) {
    forall i :: 0 <= i < |actions| ==> !actions[i].Close?
  }

  /** A run without closes is undisturbed. */
  lemma {:induction false} NoCloseUndisturbed(env: Env, s: Sys, actions: seq<Action>, toEnd: bool)
    requires IsRun(env, s, actions) && NoClose(actions)
    ensures Undisturbed(env, s, actions, toEnd)
    decreases |actions|
  {
    if actions != [] {
      NoCloseUndisturbed(env, Next(env, s, actions[0]), actions[1..], toEnd);
    }
  }

  /** s can be reached from an empty system without a disturbance of the job. */
  ghost predicate CalmlyReachable(env: Env, s: Sys, toEnd: bool) {
    exists b, now, actions ::
      IsRun(env, Initial(b, now), actions) && Undisturbed(env, Initial(b, now), actions, toEnd) &&
      s == After(env, Initial(b, now), actions)
  }

  lemma {:induction false} CalmlyReachableInv(env: Env, s: Sys, toEnd: bool)
    requires CalmlyReachable(env, s, toEnd)
    ensures Inv(env, s) && MoveInv(env, s, toEnd)
  {
    var b, now, actions :| IsRun(env, Initial(b, now), actions) &&
                           Undisturbed(env, Initial(b, now), actions, toEnd) &&
                           s == After(env, Initial(b, now), actions);
    InitialInv(env, b, now);
    UndisturbedKeeps(env, Initial(b, now), actions, toEnd);
  }
}
