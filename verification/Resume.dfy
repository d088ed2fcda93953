/**
 * Crashes and restarts of the whole pipeline: log reader, batcher, store and
 * checkpoint.  RUNBOOK.md promises "zero duplicate or skipped records"; what
 * holds is stated by ResumeStores below.
 */
module Resume {
  import opened Common
  import opened Records
  import opened System
  import opened Selection
  import opened Daemon
  import opened Persisting
  import LogFiles

  // ------------------------------------------------------------- many lives

  /** One life of the daemon: its steps until it crashed, its successor's batch id, the batch that resumes from. */
  datatype Life = Life(steps: seq<Step>, restartID: string, now: nat, latest: string)

  /** The daemon of a life reading from pos. */
  function SetupAt(env: Env, maxEvents: nat, rd: Reader, pos: Position): Setup {
    Setup(env, maxEvents, rd.reports(pos))
  }

  /**
   * A life reading from pos: the daemon works on what the reader reports, as far
   * as it gets, with whatever runs beside it and whatever fails; each batch it
   * writes is closed later than those before; and there is a batch to resume from.
   */
  ghost predicate IsLife(env: Env, maxEvents: nat, rd: Reader, s: Sys, pos: Position, life: Life) {
    && IsWork(SetupAt(env, maxEvents, rd, pos), Start(s), life.steps)
    && IsRun(env, s, Actions(life.steps)) && AllLater(env, s, Actions(life.steps))
    && var t := After(env, s, Actions(life.steps));
       IsCheckpoint(t.world.st, life.latest) && life.restartID !in t.drawn
  }

  ghost function Reborn(env: Env, s: Sys, life: Life): Sys
    requires IsRun(env, s, Actions(life.steps))
  {
    AfterCrash(After(env, s, Actions(life.steps)), life.restartID, life.now)
  }

  /** What GetLatestCheckpoint gives the next life. */
  ghost function ResumePosition(env: Env, s: Sys, life: Life): Position
    requires IsRun(env, s, Actions(life.steps))
    requires life.latest in After(env, s, Actions(life.steps)).world.st.batches
  {
    After(env, s, Actions(life.steps)).world.st.batches[life.latest].position
  }

  ghost predicate IsHistory(env: Env, maxEvents: nat, rd: Reader, s: Sys, pos: Position, lives: seq<Life>)
    decreases |lives|
  {
    lives == [] ||
    (IsLife(env, maxEvents, rd, s, pos, lives[0]) &&
     IsHistory(env, maxEvents, rd, Reborn(env, s, lives[0]), ResumePosition(env, s, lives[0]), lives[1..]))
  }

  ghost function Final(env: Env, maxEvents: nat, rd: Reader, s: Sys, pos: Position, lives: seq<Life>): Sys
    requires IsHistory(env, maxEvents, rd, s, pos, lives)
    decreases |lives|
  {
    if lives == [] then s
    else Final(env, maxEvents, rd, Reborn(env, s, lives[0]), ResumePosition(env, s, lives[0]), lives[1..])
  }

  // --------------------------------------------------------------- what a life leaves

  /** What one life leaves behind, as far as the selection is concerned. */
  lemma {:induction false} LifeFacts(env: Env, s: Sys, life: Life, actions: seq<Action>, t: Sys)
    requires actions == Actions(life.steps)
    requires Started(env, s) && IsRun(env, s, actions) && NoCrash(actions) && AllLater(env, s, actions)
    requires t == After(env, s, actions) && IsCheckpoint(t.world.st, life.latest) && life.restartID !in t.drawn
    ensures Started(env, Reborn(env, s, life))
    ensures Persisted(Reborn(env, s, life)) == Persisted(t) && Reborn(env, s, life).stamps == t.stamps
    ensures Grown(t.stamps, Persisted(s), Persisted(t), FedIn(actions))
    ensures StampsKept(s.stamps, t.stamps)
    ensures LastAt(t.stamps, Persisted(t), ResumePosition(env, s, life))
  {
    RunKeepsInv(env, s, actions);
    RunKeepsClock(env, s, actions);
    CrashRestarts(env, t, life.restartID, life.now);
    CheckpointIsLast(env, t, life.latest);
    LifePersists(env, s, actions, Persisted(s), Persisted(t), FedIn(actions));
    StampsStay(env, s, actions);
  }

  /** What the daemon handed over in a life. */
  lemma {:induction false} LifeHands(u: Setup, s: Sys, steps: seq<Step>)
    requires IsWork(u, Start(s), steps)
    ensures var e := Ended(u, Start(s), steps);
            && AllDealtWith(u, Start(s), e, Drops(u, Start(s), steps))
            && Fits(u.work, HandedCuts(u, e)) && RecordsOf(FedIn(Actions(steps)), Taken(u.work, HandedCuts(u, e)))
  {
    WorkHands(u, Start(s), steps);
    DropsAre(u, Start(s), steps);
    assert Taken(u.work, HandedCuts(u, Start(s))) == [] by {
      HandedFits(u, Start(s));
    }
  }

  /** The part of it that is stored, as a leg. */
  lemma {:induction false} LegIsOk(work: seq<TxSlots>, first: nat, u: Setup, s: Sys, e: State, kept: seq<nat>,
                                   dropped: set<nat>)
    requires first <= |work| && u.work == work[first..] && AllDealtWith(u, Start(s), e, dropped)
    requires CutShort(HandedCuts(u, e), kept) && Fits(u.work, kept)
    ensures LegOk(work, Leg(first, kept, dropped))
  {
    forall i | 0 <= i < |kept| - 1
      ensures i in dropped <==> kept[i] < |u.work[i].slots|
      ensures MayBeNone(u.work[i], kept[i])
    {
      assert DealtWith(u, Start(s), e, dropped, i);
      assert kept[i] == e.cuts[i];
    }
  }

  /** A life as TrackLife needs it: what was handed over, what of it is stored, and the resume position. */
  ghost predicate Gives(u: Setup, s: Sys, v: Sys, pos': Position, e: State, dropped: set<nat>) {
    && AllDealtWith(u, Start(s), e, dropped) && Fits(u.work, HandedCuts(u, e))
    && Extends(v.stamps, Persisted(s), Persisted(v), Taken(u.work, HandedCuts(u, e)))
    && StampsKept(s.stamps, v.stamps) && LastAt(v.stamps, Persisted(v), pos')
  }

  lemma {:induction false} LifeGives(env: Env, maxEvents: nat, rd: Reader, s: Sys, pos: Position, life: Life)
    requires Started(env, s) && IsLife(env, maxEvents, rd, s, pos, life)
    ensures Started(env, Reborn(env, s, life))
    ensures var u := SetupAt(env, maxEvents, rd, pos);
            Gives(u, s, Reborn(env, s, life), ResumePosition(env, s, life),
                  Ended(u, Start(s), life.steps), Drops(u, Start(s), life.steps))
  {
    var u, actions := SetupAt(env, maxEvents, rd, pos), Actions(life.steps);
    WorkIsRun(u, Start(s), life.steps);
    LifeHands(u, s, life.steps);
    LifeFacts(env, s, life, actions, After(env, s, actions));
    GrownExtends(After(env, s, actions).stamps, Persisted(s), Persisted(After(env, s, actions)), FedIn(actions),
                 Taken(u.work, HandedCuts(u, Ended(u, Start(s), life.steps))));
  }

  /** What a life gives is a leg, and reading goes on behind it. */
  lemma {:induction false} GivesLeg(rd: Reader, work: seq<TxSlots>, u: Setup, s: Sys, pos: Position, cuts: seq<nat>,
                                    v: Sys, pos': Position, e: State, dropped: set<nat>) returns (leg: Leg)
    requires Restartable(rd) && Tracks(rd, work, s.stamps, Persisted(s), pos, cuts)
    requires u.work == rd.reports(pos) && Gives(u, s, v, pos', e, dropped)
    ensures Tracks(rd, work, v.stamps, Persisted(v), pos', cuts + leg.cuts)
    ensures leg.first == |cuts| && leg.dropped == dropped && LegOk(work, leg)
    ensures Fits(u.work, leg.cuts) && |Persisted(v)| == |Persisted(s)| + |Taken(u.work, leg.cuts)|
    ensures rd.reports(pos') == u.work[|leg.cuts|..]
  {
    var kept := TrackLife(rd, work, u.work, s.stamps, Persisted(s), pos, cuts,
                          v.stamps, Persisted(v), pos', HandedCuts(u, e));
    LegIsOk(work, |cuts|, u, s, e, kept, dropped);
    leg := Leg(|cuts|, kept, dropped);
    RestOf(work, cuts, kept);
  }

  lemma {:induction false} OneLife(env: Env, maxEvents: nat, rd: Reader, work: seq<TxSlots>, s: Sys, pos: Position,
                                   cuts: seq<nat>, life: Life) returns (leg: Leg)
    requires Restartable(rd) && Started(env, s) && Tracks(rd, work, s.stamps, Persisted(s), pos, cuts)
    requires IsLife(env, maxEvents, rd, s, pos, life)
    ensures var v := Reborn(env, s, life);
            && Started(env, v)
            && Tracks(rd, work, v.stamps, Persisted(v), ResumePosition(env, s, life), cuts + leg.cuts)
    ensures leg.first == |cuts| && LegOk(work, leg) && Tells(env, maxEvents, rd, s, pos, life, leg)
  {
    var u := SetupAt(env, maxEvents, rd, pos);
    LifeGives(env, maxEvents, rd, s, pos, life);
    leg := GivesLeg(rd, work, u, s, pos, cuts, Reborn(env, s, life), ResumePosition(env, s, life),
                    Ended(u, Start(s), life.steps), Drops(u, Start(s), life.steps));
  }

  lemma {:induction false} RestOf<T>(work: seq<T>, a: seq<nat>, b: seq<nat>)
    requires |a| + |b| <= |work|
    ensures work[|a + b|..] == work[|a|..][|b|..]
  {
  }

  /**
   * The leg tells of this life: it lists the transactions the daemon left early,
   * its cuts add up to what the life added to the store, and the next life reads
   * on behind it.
   */
  ghost predicate Tells(env: Env, maxEvents: nat, rd: Reader, s: Sys, pos: Position, life: Life, leg: Leg)
    requires IsLife(env, maxEvents, rd, s, pos, life)
  {
    var u, v := SetupAt(env, maxEvents, rd, pos), Reborn(env, s, life);
    && leg.dropped == Drops(u, Start(s), life.steps)
    && Fits(u.work, leg.cuts) && |Persisted(v)| == |Persisted(s)| + |Taken(u.work, leg.cuts)|
    && rd.reports(ResumePosition(env, s, life)) == u.work[|leg.cuts|..]
  }

  ghost predicate AllTell(env: Env, maxEvents: nat, rd: Reader, s: Sys, pos: Position, lives: seq<Life>, legs: seq<Leg>)
    requires IsHistory(env, maxEvents, rd, s, pos, lives) && |legs| == |lives|
    decreases |lives|
  {
    lives == [] ||
    (Tells(env, maxEvents, rd, s, pos, lives[0], legs[0]) &&
     AllTell(env, maxEvents, rd, Reborn(env, s, lives[0]), ResumePosition(env, s, lives[0]), lives[1..], legs[1..]))
  }

  lemma {:induction false} HistoryFirst(env: Env, maxEvents: nat, rd: Reader, s: Sys, pos: Position, lives: seq<Life>)
    requires lives != [] && IsHistory(env, maxEvents, rd, s, pos, lives)
    ensures IsLife(env, maxEvents, rd, s, pos, lives[0])
    ensures var v, pos1, rest := Reborn(env, s, lives[0]), ResumePosition(env, s, lives[0]), lives[1..];
            && IsHistory(env, maxEvents, rd, v, pos1, rest)
            && Final(env, maxEvents, rd, s, pos, lives) == Final(env, maxEvents, rd, v, pos1, rest)
  {
  }

  lemma {:induction false} TellsFirst(env: Env, maxEvents: nat, rd: Reader, s: Sys, pos: Position,
                                      lives: seq<Life>, leg: Leg, later: seq<Leg>)
    requires lives != [] && IsHistory(env, maxEvents, rd, s, pos, lives) && |later| == |lives| - 1
    requires Tells(env, maxEvents, rd, s, pos, lives[0], leg)
    requires AllTell(env, maxEvents, rd, Reborn(env, s, lives[0]), ResumePosition(env, s, lives[0]), lives[1..], later)
    ensures AllTell(env, maxEvents, rd, s, pos, lives, [leg] + later)
  {
    assert ([leg] + later)[1..] == later;
  }

  lemma {:induction false} LegsFirst(work: seq<TxSlots>, first: nat, leg: Leg, next: nat, later: seq<Leg>)
    requires leg.first == first && LegOk(work, leg) && next == first + |leg.cuts| && LegsOk(work, next, later)
    ensures LegsOk(work, first, [leg] + later) && CutsOf([leg] + later) == leg.cuts + CutsOf(later)
  {
    assert ([leg] + later)[1..] == later;
  }

  /** The records of rs are those the cuts take. */
  ghost predicate StoredAs(work: seq<TxSlots>, t: Sys, cuts: seq<nat>) {
    Fits(work, cuts) && Matches(t.stamps, Persisted(t), Taken(work, cuts))
  }

  lemma {:induction false} ManyLives(env: Env, maxEvents: nat, rd: Reader, work: seq<TxSlots>, s: Sys, pos: Position,
                                     cuts: seq<nat>, lives: seq<Life>) returns (legs: seq<Leg>)
    requires Restartable(rd) && Started(env, s) && Tracks(rd, work, s.stamps, Persisted(s), pos, cuts)
    requires IsHistory(env, maxEvents, rd, s, pos, lives)
    ensures |legs| == |lives| && LegsOk(work, |cuts|, legs) && AllTell(env, maxEvents, rd, s, pos, lives, legs)
    ensures StoredAs(work, Final(env, maxEvents, rd, s, pos, lives), cuts + CutsOf(legs))
    decreases |lives|, 1
  {
    if lives == [] {
      legs := [];
      assert cuts + CutsOf(legs) == cuts;
    } else {
      legs := MoreLives(env, maxEvents, rd, work, s, pos, cuts, lives);
    }
  }

  /** The first life, and then the others. */
  lemma {:induction false} MoreLives(env: Env, maxEvents: nat, rd: Reader, work: seq<TxSlots>, s: Sys, pos: Position,
                                     cuts: seq<nat>, lives: seq<Life>) returns (legs: seq<Leg>)
    requires Restartable(rd) && Started(env, s) && Tracks(rd, work, s.stamps, Persisted(s), pos, cuts)
    requires lives != [] && IsHistory(env, maxEvents, rd, s, pos, lives)
    ensures |legs| == |lives| && LegsOk(work, |cuts|, legs) && AllTell(env, maxEvents, rd, s, pos, lives, legs)
    ensures StoredAs(work, Final(env, maxEvents, rd, s, pos, lives), cuts + CutsOf(legs))
    decreases |lives|, 0
  {
    HistoryFirst(env, maxEvents, rd, s, pos, lives);
    var v, pos1 := Reborn(env, s, lives[0]), ResumePosition(env, s, lives[0]);
    var leg := OneLife(env, maxEvents, rd, work, s, pos, cuts, lives[0]);
    var later := ManyLives(env, maxEvents, rd, work, v, pos1, cuts + leg.cuts, lives[1..]);
    legs := [leg] + later;
    TellsFirst(env, maxEvents, rd, s, pos, lives, leg, later);
    LegsFirst(work, |cuts|, leg, |cuts + leg.cuts|, later);
    Assoc(cuts, leg.cuts, CutsOf(later));
  }

  // ------------------------------------------------------- what is in the store

  ghost predicate NoPurges(lives: seq<Life>) {
    forall i :: 0 <= i < |lives| ==> NoPurge(Actions(lives[i].steps))
  }

  /**
   * The store holds records persisted and no others, each under an id of its
   * own, and a batch of them as a whole or not at all; if no life purged a batch
   * it holds all of them.
   */
  ghost predicate StoreAfter(lives: seq<Life>, t: Sys) {
    && StoreHolds(t) && DistinctIds(Persisted(t))
    && (NoPurges(lives) ==> forall r :: r in Persisted(t) ==> IsHot(t.world.st.records, r))
  }

  lemma {:induction false} LifeKeepsHot(env: Env, maxEvents: nat, rd: Reader, s: Sys, pos: Position, life: Life)
    requires Started(env, s) && AllInHot(s) && IsLife(env, maxEvents, rd, s, pos, life)
    requires NoPurge(Actions(life.steps))
    ensures AllInHot(Reborn(env, s, life))
  {
    RunKeepsHot(env, s, Actions(life.steps));
  }

  lemma {:induction false} HistoryKeepsStore(env: Env, maxEvents: nat, rd: Reader, s: Sys, pos: Position,
                                             lives: seq<Life>)
    requires Started(env, s) && IsHistory(env, maxEvents, rd, s, pos, lives)
    ensures var t := Final(env, maxEvents, rd, s, pos, lives);
            Started(env, t) && (AllInHot(s) && NoPurges(lives) ==> AllInHot(t))
    decreases |lives|
  {
    if lives != [] {
      var v, pos1, rest := Reborn(env, s, lives[0]), ResumePosition(env, s, lives[0]), lives[1..];
      HistoryFirst(env, maxEvents, rd, s, pos, lives);
      LifeGives(env, maxEvents, rd, s, pos, lives[0]);
      HistoryKeepsStore(env, maxEvents, rd, v, pos1, rest);
      if AllInHot(s) && NoPurges(lives) {
        LifeKeepsHot(env, maxEvents, rd, s, pos, lives[0]);
        NoPurgesRest(lives);
      }
    }
  }

  lemma {:induction false} NoPurgesRest(lives: seq<Life>)
    requires NoPurges(lives) && lives != []
    ensures NoPurges(lives[1..])
  {
    forall i | 0 <= i < |lives| - 1 ensures NoPurge(Actions(lives[1..][i].steps)) {
      assert lives[1..][i] == lives[i + 1];
    }
  }

  lemma {:induction false} HistoryStoreAfter(env: Env, maxEvents: nat, rd: Reader, batchID: string, now: nat,
                                             pos: Position, lives: seq<Life>)
    requires IsHistory(env, maxEvents, rd, Initial(batchID, now), pos, lives)
    ensures StoreAfter(lives, Final(env, maxEvents, rd, Initial(batchID, now), pos, lives))
  {
    var t := Final(env, maxEvents, rd, Initial(batchID, now), pos, lives);
    InitialInv(env, batchID, now);
    HistoryKeepsStore(env, maxEvents, rd, Initial(batchID, now), pos, lives);
    StoreIsPersisted(env, t);
    PersistedDistinct(env, t);
    if NoPurges(lives) {
      HotIsPersisted(env, t);
    }
  }

  // ---------------------------------------------------------------- the log reader

  /** The reader of a server's log. */
  ghost function LogReader(plan: Plan, log: LogFiles.Log): Reader {
    Reader(pos => WorkOf(plan, LogFiles.Reports(log, pos)), pos => LogFiles.CanStart(log, pos))
  }

  lemma {:induction false} LogRestartsAt(plan: Plan, log: LogFiles.Log, pos: Position, j: nat)
    requires LogFiles.LogOk(log)
    ensures RestartsAt(LogReader(plan, log), pos, j)
  {
    var txs := LogFiles.Reports(log, pos);
    if LogFiles.CanStart(log, pos) && j < |txs| {
      LogFiles.RestartReportsTheRest(log, pos, j);
      WorkOfRest(plan, txs, j + 1);
    }
  }

  lemma {:induction false} LogIsRestartable(plan: Plan, log: LogFiles.Log)
    requires LogFiles.LogOk(log)
    ensures Restartable(LogReader(plan, log))
  {
    forall pos, j: nat ensures RestartsAt(LogReader(plan, log), pos, j) {
      LogRestartsAt(plan, log, pos, j);
    }
  }

  /**
   * Crash and resume, any number of times, at any points, with whatever runs
   * beside the pipeline and whatever fails.  Take the transactions reported from
   * the first start on.  What has been persisted is, of each of them up to some
   * point, one record of each of the first so many audited changes, in order:
   * nothing twice.  All of them are there but for the transactions a life left
   * early and the one a checkpoint fell into.  The store holds these records and
   * no others, but for the batches that were purged.
   */
  lemma {:induction false} ResumeStores(env: Env, maxEvents: nat, plan: Plan, log: LogFiles.Log, start: Position,
                                        batchID: string, now: nat, lives: seq<Life>) returns (legs: seq<Leg>)
    requires LogFiles.LogOk(log) && LogFiles.CanStart(log, start)
    requires IsHistory(env, maxEvents, LogReader(plan, log), Initial(batchID, now), start, lives)
    ensures var rd, work := LogReader(plan, log), WorkOf(plan, LogFiles.Reports(log, start));
            && |legs| == |lives| && AllTell(env, maxEvents, rd, Initial(batchID, now), start, lives, legs)
            && LegsOk(work, 0, legs)
            && var t := Final(env, maxEvents, rd, Initial(batchID, now), start, lives);
               && StoredAs(work, t, CutsOf(legs)) && StoreAfter(lives, t)
               && |Persisted(t)| <= ChangeCount(work, |CutsOf(legs)|)
               && (|Persisted(t)| == ChangeCount(work, |CutsOf(legs)|) <==>
                   forall leg :: leg in legs ==> Unbroken(work, leg))
  {
    LogIsRestartable(plan, log);
    legs := HistoryStores(env, maxEvents, LogReader(plan, log), start, batchID, now, lives);
    var work := WorkOf(plan, LogFiles.Reports(log, start));
    assert work[0..] == work;
    NothingSkippedIff(work, 0, work, legs);
    AllTakenIff(work, CutsOf(legs));
  }

  lemma {:induction false} InitialTracks(rd: Reader, start: Position, batchID: string, now: nat)
    requires rd.canStart(start)
    ensures var s := Initial(batchID, now); Tracks(rd, rd.reports(start), s.stamps, Persisted(s), start, [])
  {
    var work := rd.reports(start);
    assert work[0..] == work;
    assert Taken(work, []) == [];
  }

  lemma {:induction false} HistoryStores(env: Env, maxEvents: nat, rd: Reader, start: Position,
                                         batchID: string, now: nat, lives: seq<Life>) returns (legs: seq<Leg>)
    requires Restartable(rd) && rd.canStart(start)
    requires IsHistory(env, maxEvents, rd, Initial(batchID, now), start, lives)
    ensures |legs| == |lives| && AllTell(env, maxEvents, rd, Initial(batchID, now), start, lives, legs)
    ensures LegsOk(rd.reports(start), 0, legs)
    ensures StoredAs(rd.reports(start), Final(env, maxEvents, rd, Initial(batchID, now), start, lives), CutsOf(legs))
    ensures StoreAfter(lives, Final(env, maxEvents, rd, Initial(batchID, now), start, lives))
  {
    var work := rd.reports(start);
    InitialInv(env, batchID, now);
    InitialTracks(rd, start, batchID, now);
    legs := ManyLives(env, maxEvents, rd, work, Initial(batchID, now), start, [], lives);
    assert [] + CutsOf(legs) == CutsOf(legs);
    HistoryStoreAfter(env, maxEvents, rd, batchID, now, start, lives);
  }
}
