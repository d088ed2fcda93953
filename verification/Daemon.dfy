/**
 * The running daemon: the goroutine of internal/pipeline/pipeline.go, which
 * hands the records of one transaction after another to the batcher, and beside
 * it the timer, flushes, the bootstrap flag and the tiering job, interleaved in
 * any way, also between the two locked regions of AddRecord.
 */
module Daemon {
  import opened Records
  import opened Batching
  import opened System
  import opened Selection

  /** What a daemon works with: the batch limit, and the transactions it reads, as audited changes. */
  datatype Setup = Setup(env: Env, maxEvents: nat, work: seq<TxSlots>)

  /**
   * Where the daemon is: it has dealt with |cuts| transactions and handed cuts[i]
   * records of each; of the next one it has handed `item` records, and `closing`
   * says the last of them filled the batch, so that a close is due.
   */
  datatype State = State(sys: Sys, cuts: seq<nat>, item: nat, closing: bool)

  /**
   * A step of the pipeline itself or of something beside it; or on to the next
   * transaction, at the end of one or because a change could not be built.
   */
  datatype Step = Own(a: Action) | Other(a: Action) | Turn | Quit

  function Start(s: Sys): State {
    State(s, [], 0, false)
  }

  /** The pipeline adds a record of the next change of its transaction, or closes the batch the last one filled. */
  ghost predicate OwnEnabled(u: Setup, d: State, a: Action) {
    && |d.cuts| < |u.work|
    && if d.closing then a.Close?
       else
         var w := u.work[|d.cuts|];
         d.item < |w.slots| && a.Add? && w.slots[d.item].makes(a.body) && a.pos == w.pos
  }

  predicate CanQuit(w: TxSlots, item: nat) {
    item < |w.slots| && w.slots[item].mayFail
  }

  ghost predicate CanStep(u: Setup, d: State, m: Step) {
    match m
    case Own(a) => Enabled(u.env, d.sys, a) && OwnEnabled(u, d, a)
    case Other(a) => Enabled(u.env, d.sys, a) && !a.Add? && !a.Crash?
    case Turn => !d.closing && |d.cuts| < |u.work| && d.item == |u.work[|d.cuts|].slots|
    case Quit => !d.closing && |d.cuts| < |u.work| && CanQuit(u.work[|d.cuts|], d.item)
  }

  /** The daemon's own close fails, which makes it leave the transaction. */
  predicate Fails(u: Setup, d: State, a: Action) {
    a.Close? && CloseOutcome(u.env, d.sys.world, a.io).Err?
  }

  function Leave(d: State): State {
    d.(cuts := d.cuts + [d.item], item := 0, closing := false)
  }

  ghost function Stepped(u: Setup, d: State, m: Step): State
    requires CanStep(u, d, m)
  {
    match m
    case Turn => Leave(d)
    case Quit => Leave(d)
    case Other(a) => d.(sys := Next(u.env, d.sys, a))
    case Own(a) =>
      var t := Next(u.env, d.sys, a);
      if a.Add? then d.(sys := t, item := d.item + 1, closing := |t.world.buffer.records| >= u.maxEvents)
      else if Fails(u, d, a) then Leave(d.(sys := t))
      else d.(sys := t, closing := false)
  }

  ghost predicate IsWork(u: Setup, d: State, steps: seq<Step>)
    decreases |steps|
  {
    steps == [] || (CanStep(u, d, steps[0]) && IsWork(u, Stepped(u, d, steps[0]), steps[1..]))
  }

  ghost function Ended(u: Setup, d: State, steps: seq<Step>): State
    requires IsWork(u, d, steps)
    decreases |steps|
  {
    if steps == [] then d else Ended(u, Stepped(u, d, steps[0]), steps[1..])
  }

  /** The steps lead from d to e. */
  ghost predicate Leads(u: Setup, d: State, steps: seq<Step>, e: State) {
    IsWork(u, d, steps) && Ended(u, d, steps) == e
  }

  lemma {:induction false} WorkCons(u: Setup, d: State, m: Step, rest: seq<Step>, e: State)
    requires CanStep(u, d, m) && Leads(u, Stepped(u, d, m), rest, e)
    ensures Leads(u, d, [m] + rest, e)
  {
    assert ([m] + rest)[1..] == rest;
  }

  lemma {:induction false} WorkFirst(u: Setup, d: State, steps: seq<Step>, e: State)
    requires Leads(u, d, steps, e) && steps != []
    ensures CanStep(u, d, steps[0]) && Leads(u, Stepped(u, d, steps[0]), steps[1..], e)
  {
  }

  lemma {:induction false} WorkAppend(u: Setup, d: State, s1: seq<Step>, e: State, s2: seq<Step>, f: State)
    requires Leads(u, d, s1, e) && Leads(u, e, s2, f)
    ensures Leads(u, d, s1 + s2, f)
    decreases |s1|
  {
    if s1 == [] {
      assert s1 + s2 == s2;
    } else {
      WorkFirst(u, d, s1, e);
      WorkAppend(u, Stepped(u, d, s1[0]), s1[1..], e, s2, f);
      WorkCons(u, d, s1[0], s1[1..] + s2, f);
      assert s1 + s2 == [s1[0]] + (s1[1..] + s2);
    }
  }

  lemma {:induction false} OneStep(u: Setup, d: State, m: Step)
    requires CanStep(u, d, m)
    ensures Leads(u, d, [m], Stepped(u, d, m))
  {
    assert [m][1..] == [];
  }

  // -------------------------------------------------------- as a run of the system

  function ActionsBy(m: Step): seq<Action> {
    if m.Turn? || m.Quit? then [] else [m.a]
  }

  function Actions(steps: seq<Step>): seq<Action> {
    if steps == [] then [] else ActionsBy(steps[0]) + Actions(steps[1..])
  }

  ghost predicate NoCrash(actions: seq<Action>) {
    forall i :: 0 <= i < |actions| ==> !actions[i].Crash?
  }

  /** What the daemon does is a run of the system without a crash. */
  lemma {:induction false} WorkIsRun(u: Setup, d: State, steps: seq<Step>)
    requires IsWork(u, d, steps)
    ensures IsRun(u.env, d.sys, Actions(steps)) && NoCrash(Actions(steps))
    ensures After(u.env, d.sys, Actions(steps)) == Ended(u, d, steps).sys
    decreases |steps|
  {
    if steps != [] {
      var m, rest := steps[0], steps[1..];
      WorkIsRun(u, Stepped(u, d, m), rest);
      if m.Turn? || m.Quit? {
        assert [] + Actions(rest) == Actions(rest);
      } else {
        RunOf1(u.env, d.sys, m.a, Actions(rest));
      }
    }
  }

  // ------------------------------------------------------------ what it hands over

  /** What a run's appends were given. */
  function FedIn(actions: seq<Action>): seq<Fed> {
    if actions == [] then [] else FedBy(actions[0]) + FedIn(actions[1..])
  }

  function FedBy(a: Action): seq<Fed> {
    if a.Add? then [(a.body, a.pos)] else []
  }

  ghost predicate StateOk(u: Setup, d: State) {
    && Fits(u.work, d.cuts)
    && (d.closing ==> 0 < d.item)
    && if |d.cuts| < |u.work| then d.item <= |u.work[|d.cuts|].slots| else d.item == 0
  }

  /** Of how many changes of each transaction records have been handed over, the current one included. */
  function HandedCuts(u: Setup, d: State): seq<nat> {
    if |d.cuts| < |u.work| then d.cuts + [d.item] else d.cuts
  }

  lemma {:induction false} HandedFits(u: Setup, d: State)
    requires StateOk(u, d)
    ensures Fits(u.work, HandedCuts(u, d))
    ensures |d.cuts| < |u.work| ==>
              Taken(u.work, HandedCuts(u, d)) == Taken(u.work, d.cuts) + First(u.work[|d.cuts|], d.item)
  {
    if |d.cuts| < |u.work| {
      TakenSnoc(u.work, d.cuts, d.item);
    }
  }

  /** Between d and e records of the changes taken in addition are handed over: these. */
  ghost predicate HandsOver(u: Setup, d: State, fed: seq<Fed>, e: State) {
    && StateOk(u, e) && Fits(u.work, HandedCuts(u, d)) && Fits(u.work, HandedCuts(u, e))
    && Taken(u.work, HandedCuts(u, d)) <= Taken(u.work, HandedCuts(u, e))
    && RecordsOf(fed, Taken(u.work, HandedCuts(u, e))[|Taken(u.work, HandedCuts(u, d))|..])
  }

  lemma {:induction false} HandsNothing(u: Setup, d: State, e: State)
    requires StateOk(u, e) && Fits(u.work, HandedCuts(u, d)) && Fits(u.work, HandedCuts(u, e))
    requires Taken(u.work, HandedCuts(u, e)) == Taken(u.work, HandedCuts(u, d))
    ensures HandsOver(u, d, [], e)
  {
  }

  lemma {:induction false} HandsThen(u: Setup, d: State, f1: seq<Fed>, e: State, f2: seq<Fed>, f: State)
    requires HandsOver(u, d, f1, e) && HandsOver(u, e, f2, f)
    ensures HandsOver(u, d, f1 + f2, f)
  {
    var a, b, c := Taken(u.work, HandedCuts(u, d)), Taken(u.work, HandedCuts(u, e)), Taken(u.work, HandedCuts(u, f));
    RecordsOfAppend(f1, b[|a|..], f2, c[|b|..]);
    assert c[|a|..] == b[|a|..] + c[|b|..];
  }

  lemma {:induction false} LeaveHands(u: Setup, d: State, e: State)
    requires StateOk(u, d) && |d.cuts| < |u.work|
    requires e.cuts == d.cuts + [d.item] && e.item == 0 && !e.closing
    ensures HandsOver(u, d, [], e)
  {
    HandedFits(u, d);
    HandedFits(u, e);
    if |e.cuts| < |u.work| {
      assert First(u.work[|e.cuts|], 0) == [];
    }
    HandsNothing(u, d, e);
  }

  lemma {:induction false} AddHands(u: Setup, d: State, e: State, a: Action)
    requires StateOk(u, d) && |d.cuts| < |u.work| && d.item < |u.work[|d.cuts|].slots|
    requires a.Add? && u.work[|d.cuts|].slots[d.item].makes(a.body) && a.pos == u.work[|d.cuts|].pos
    requires e.cuts == d.cuts && e.item == d.item + 1
    ensures HandsOver(u, d, [(a.body, a.pos)], e)
  {
    var w := u.work[|d.cuts|];
    HandedFits(u, d);
    HandedFits(u, e);
    assert First(w, d.item + 1) == First(w, d.item) + [(w.slots[d.item], w.pos)];
    assert Taken(u.work, HandedCuts(u, e)) == Taken(u.work, HandedCuts(u, d)) + [(w.slots[d.item], w.pos)];
  }

  lemma {:induction false} StepHands(u: Setup, d: State, m: Step)
    requires StateOk(u, d) && CanStep(u, d, m)
    ensures HandsOver(u, d, FedIn(ActionsBy(m)), Stepped(u, d, m))
  {
    var e := Stepped(u, d, m);
    if m.Own? && m.a.Add? {
      AddHands(u, d, e, m.a);
      FedOne(m.a);
    } else if Leaves(u, d, m) {
      LeaveHands(u, d, e);
      FedNone(m);
    } else {
      HandedFits(u, d);
      HandsNothing(u, d, e);
      FedNone(m);
    }
  }

  lemma {:induction false} FedOne(a: Action)
    requires a.Add?
    ensures FedIn([a]) == [(a.body, a.pos)]
  {
    assert FedIn([a]) == FedBy(a) + FedIn([]);
  }

  lemma {:induction false} FedNone(m: Step)
    requires (m.Own? || m.Other?) ==> !m.a.Add?
    ensures FedIn(ActionsBy(m)) == []
  {
  }

  /** The step takes the daemon out of its transaction. */
  predicate Leaves(u: Setup, d: State, m: Step) {
    m.Turn? || m.Quit? || (m.Own? && Fails(u, d, m.a))
  }

  lemma {:induction false} FedAppend(a: seq<Action>, b: seq<Action>)
    ensures FedIn(a + b) == FedIn(a) + FedIn(b)
  {
    if a == [] {
      assert a + b == b;
    } else {
      assert (a + b)[1..] == a[1..] + b;
      FedAppend(a[1..], b);
    }
  }

  /**
   * Whatever runs beside it and whatever fails, the daemon hands over one record
   * of each of the first changes of each transaction, in order.
   */
  lemma {:induction false} WorkHands(u: Setup, d: State, steps: seq<Step>)
    requires StateOk(u, d) && IsWork(u, d, steps)
    ensures HandsOver(u, d, FedIn(Actions(steps)), Ended(u, d, steps))
    decreases |steps|
  {
    if steps == [] {
      HandedFits(u, d);
      HandsNothing(u, d, d);
    } else {
      var m, rest := steps[0], steps[1..];
      var c := Stepped(u, d, m);
      StepHands(u, d, m);
      WorkHands(u, c, rest);
      FedAppend(ActionsBy(m), Actions(rest));
      HandsThen(u, d, FedIn(ActionsBy(m)), c, FedIn(Actions(rest)), Ended(u, c, rest));
    }
  }

  // ------------------------------------------------------- transactions cut short

  /**
   * The transactions left with changes still to record, because the daemon's own
   * close failed or a change could not be built.
   */
  ghost function Drops(u: Setup, d: State, steps: seq<Step>): set<nat>
    requires IsWork(u, d, steps)
    decreases |steps|
  {
    if steps == [] then {} else DropsBy(u, d, steps[0]) + Drops(u, Stepped(u, d, steps[0]), steps[1..])
  }

  ghost function DropsBy(u: Setup, d: State, m: Step): set<nat>
    requires CanStep(u, d, m)
  {
    if Leaves(u, d, m) && d.item < |u.work[|d.cuts|].slots| then {|d.cuts|} else {}
  }

  /** Transaction i, dealt with between d and e, was left early exactly if it is in `dropped`. */
  ghost predicate DealtWith(u: Setup, d: State, e: State, dropped: set<nat>, i: nat)
    requires StateOk(u, e) && |d.cuts| <= i < |e.cuts|
  {
    && (i in dropped <==> e.cuts[i] < |u.work[i].slots|)
    && MayBeNone(u.work[i], e.cuts[i])
  }

  /** All transactions dealt with between d and e. */
  ghost predicate AllDealtWith(u: Setup, d: State, e: State, dropped: set<nat>) {
    && StateOk(u, e) && d.cuts <= e.cuts
    && (forall i :: i in dropped ==> |d.cuts| <= i < |e.cuts|)
    && forall i :: |d.cuts| <= i < |e.cuts| ==> DealtWith(u, d, e, dropped, i)
  }

  lemma {:induction false} LeaveDeals(u: Setup, d: State, e: State, dropped: set<nat>)
    requires StateOk(u, d) && StateOk(u, e) && |d.cuts| < |u.work| && e.cuts == d.cuts + [d.item]
    requires MayBeNone(u.work[|d.cuts|], d.item)
    requires dropped == if d.item < |u.work[|d.cuts|].slots| then {|d.cuts|} else {}
    ensures AllDealtWith(u, d, e, dropped)
  {
    var n := |d.cuts|;
    assert e.cuts[n] == d.item;
    assert DealtWith(u, d, e, dropped, n);
  }

  lemma {:induction false} StepDeals(u: Setup, d: State, m: Step)
    requires StateOk(u, d) && CanStep(u, d, m)
    ensures AllDealtWith(u, d, Stepped(u, d, m), DropsBy(u, d, m))
  {
    var e := Stepped(u, d, m);
    StepHands(u, d, m);
    if Leaves(u, d, m) {
      LeaveDeals(u, d, e, DropsBy(u, d, m));
    } else {
      assert e.cuts == d.cuts && DropsBy(u, d, m) == {};
    }
  }

  lemma {:induction false} DealsCompose(u: Setup, d: State, c: State, e: State, now: set<nat>, later: set<nat>)
    requires AllDealtWith(u, d, c, now) && AllDealtWith(u, c, e, later)
    ensures AllDealtWith(u, d, e, now + later)
  {
    forall i | |d.cuts| <= i < |e.cuts| ensures DealtWith(u, d, e, now + later, i) {
      if i < |c.cuts| {
        assert DealtWith(u, d, c, now, i);
        assert e.cuts[i] == c.cuts[i];
      } else {
        assert DealtWith(u, c, e, later, i);
      }
    }
  }

  /** Of the transactions dealt with, exactly those in Drops were left early, and none was left out. */
  lemma {:induction false} DropsAre(u: Setup, d: State, steps: seq<Step>)
    requires StateOk(u, d) && IsWork(u, d, steps)
    ensures AllDealtWith(u, d, Ended(u, d, steps), Drops(u, d, steps))
    decreases |steps|
  {
    if steps != [] {
      var m, rest := steps[0], steps[1..];
      var c, e := Stepped(u, d, m), Ended(u, d, steps);
      StepDeals(u, d, m);
      DropsAre(u, c, rest);
      DealsCompose(u, d, c, e, DropsBy(u, d, m), Drops(u, c, rest));
    }
  }

  // -------------------------------------------------- the calls of one transaction

  /** No id and no batch id of the calls or of `last` has been used, and none occurs twice. */
  ghost predicate FreshCalls(s: Sys, calls: seq<AddCall>, last: CloseIo) {
    && last.nextBatchID !in s.drawn
    && (forall k :: 0 <= k < |calls| ==>
          && calls[k].id !in s.stamps && calls[k].io.nextBatchID !in s.drawn
          && calls[k].io.nextBatchID != last.nextBatchID)
    && forall k, l :: 0 <= k < l < |calls| ==>
         calls[k].id != calls[l].id && calls[k].io.nextBatchID != calls[l].io.nextBatchID
  }

  lemma {:induction false} FreshAfter(s: Sys, t: Sys, c: AddCall, rest: seq<AddCall>, last: CloseIo)
    requires FreshCalls(s, [c] + rest, last)
    requires t.stamps.Keys <= s.stamps.Keys + {c.id} && t.drawn <= s.drawn + {c.io.nextBatchID}
    ensures FreshCalls(t, rest, last)
  {
    var all := [c] + rest;
    assert all[0] == c;
    forall k | 0 <= k < |rest|
      ensures rest[k].id !in t.stamps && rest[k].io.nextBatchID !in t.drawn &&
              rest[k].io.nextBatchID != last.nextBatchID
    {
      assert all[k + 1] == rest[k];
    }
    forall k, l | 0 <= k < l < |rest|
      ensures rest[k].id != rest[l].id && rest[k].io.nextBatchID != rest[l].io.nextBatchID
    {
      assert all[k + 1] == rest[k] && all[l + 1] == rest[l];
    }
  }

  lemma {:induction false} FreshDrop(s: Sys, a: seq<AddCall>, b: seq<AddCall>, last: CloseIo)
    requires FreshCalls(s, a + b, last)
    ensures FreshCalls(s, b, last)
  {
    var all := a + b;
    forall k | 0 <= k < |b|
      ensures b[k].id !in s.stamps && b[k].io.nextBatchID !in s.drawn && b[k].io.nextBatchID != last.nextBatchID
    {
      assert all[|a| + k] == b[k];
    }
    forall k, l | 0 <= k < l < |b|
      ensures b[k].id != b[l].id && b[k].io.nextBatchID != b[l].io.nextBatchID
    {
      assert all[|a| + k] == b[k] && all[|a| + l] == b[l];
    }
  }

  /** Between transactions or records, with transaction |cuts| to go on with. */
  ghost predicate Ready(u: Setup, d: State, w: TxSlots) {
    !d.closing && |d.cuts| < |u.work| && u.work[|d.cuts|] == w
  }

  /** The steps of one call of AddRecord. */
  function CallSteps(maxEvents: nat, w: World, c: AddCall): seq<Step> {
    [Own(Add(c.id, c.body, c.pos))] + if Fills(maxEvents, w, c) then [Own(Close(c.io))] else []
  }

  /** A call leads from d to e: on to the next record, or out of the transaction if the call fails. */
  ghost predicate CallLeads(u: Setup, d: State, c: AddCall, e: State) {
    && e.sys.world == AddOnce(u.env, u.maxEvents, d.sys.world, c)
    && e.sys.stamps.Keys <= d.sys.stamps.Keys + {c.id} && e.sys.drawn <= d.sys.drawn + {c.io.nextBatchID}
    && !e.closing
    && if AddOutcome(u.env, u.maxEvents, d.sys.world, c).Ok?
       then e.cuts == d.cuts && e.item == d.item + 1
       else e.cuts == d.cuts + [d.item + 1] && e.item == 0
  }

  lemma {:induction false} CallIsWork(u: Setup, d: State, w: TxSlots, c: AddCall)
    requires Ready(u, d, w) && d.item < |w.slots| && w.slots[d.item].makes(c.body) && c.pos == w.pos
    requires c.id !in d.sys.stamps && c.io.nextBatchID !in d.sys.drawn
    ensures var steps := CallSteps(u.maxEvents, d.sys.world, c);
            IsWork(u, d, steps) && CallLeads(u, d, c, Ended(u, d, steps))
  {
    var add, close := Own(Add(c.id, c.body, c.pos)), Own(Close(c.io));
    var e := Stepped(u, d, add);
    assert e.sys.world == Appended(d.sys.world, c);
    if Fills(u.maxEvents, d.sys.world, c) {
      OneStep(u, e, close);
      WorkCons(u, d, add, [close], Stepped(u, e, close));
    } else {
      OneStep(u, d, add);
      assert [add] + [] == [add];
    }
  }

  /** The first n calls of a transaction, of which all but perhaps the last succeed, lead from d to e. */
  ghost predicate CallsLead(u: Setup, d: State, calls: seq<AddCall>, n: nat, e: State)
    requires n <= |calls|
  {
    && e.sys.world == AddAll(u.env, u.maxEvents, d.sys.world, calls[..n])
    && !e.closing
    && if n == 0 || Passes(u.env, u.maxEvents, d.sys.world, calls, n - 1)
       then e.cuts == d.cuts && e.item == n
       else e.cuts == d.cuts + [n] && e.item == 0
  }

  /** One more call. */
  lemma {:induction false} CallsLeadOn(u: Setup, d: State, calls: seq<AddCall>, m: nat, e: State, f: State)
    requires m < |calls| && CallsLead(u, d, calls, m, e) && CallLeads(u, e, calls[m], f)
    requires m == 0 || Passes(u.env, u.maxEvents, d.sys.world, calls, m - 1)
    ensures CallsLead(u, d, calls, m + 1, f)
  {
    AddAllNext(u.env, u.maxEvents, d.sys.world, calls, m);
  }

  lemma {:induction false} CallsAreWork(u: Setup, d: State, w: TxSlots, calls: seq<AddCall>, n: nat,
                                        rest: seq<AddCall>, last: CloseIo) returns (steps: seq<Step>, e: State)
    requires Ready(u, d, w) && d.item == 0 && n <= |calls| <= |w.slots|
    requires forall k :: 0 <= k < |calls| ==> w.slots[k].makes(calls[k].body) && calls[k].pos == w.pos
    requires forall k :: 0 <= k < n - 1 ==> Passes(u.env, u.maxEvents, d.sys.world, calls, k)
    requires FreshCalls(d.sys, calls + rest, last)
    ensures Leads(u, d, steps, e) && CallsLead(u, d, calls, n, e)
    ensures FreshCalls(e.sys, calls[n..] + rest, last)
  {
    if n == 0 {
      steps, e := [], d;
      assert calls[..0] == [] && calls[0..] == calls;
    } else {
      var m, c := n - 1, calls[n - 1];
      var before, b := CallsAreWork(u, d, w, calls, m, rest, last);
      CallsRest(calls, rest, m);
      CallIsWork(u, b, w, c);
      var more := CallSteps(u.maxEvents, b.sys.world, c);
      e := Ended(u, b, more);
      CallsLeadOn(u, d, calls, m, b, e);
      FreshAfter(b.sys, e.sys, c, calls[n..] + rest, last);
      WorkAppend(u, d, before, b, more, e);
      steps := before + more;
    }
  }

  lemma {:induction false} CallsRest(calls: seq<AddCall>, rest: seq<AddCall>, m: nat)
    requires m < |calls|
    ensures calls[m..] + rest == [calls[m]] + (calls[m + 1..] + rest)
    ensures (calls[m..] + rest)[0] == calls[m]
  {
  }

  /**
   * The calls hand over records of the first changes of w, all that can be
   * built, and stop after n of them: at the end, or because the last one fails.
   */
  ghost predicate StopsAt(env: Env, maxEvents: nat, start: World, w: TxSlots, calls: seq<AddCall>, n: nat) {
    && n <= |calls| <= |w.slots| && (|calls| < |w.slots| ==> w.slots[|calls|].mayFail)
    && (forall k :: 0 <= k < |calls| ==> w.slots[k].makes(calls[k].body) && calls[k].pos == w.pos)
    && (forall k :: 0 <= k < n - 1 ==> Passes(env, maxEvents, start, calls, k))
    && (n == |calls| || (n > 0 && !Passes(env, maxEvents, start, calls, n - 1)))
  }

  /** A whole transaction: all calls, or those up to one that fails; then on to the next transaction. */
  lemma {:induction false} TxIsWork(u: Setup, d: State, w: TxSlots, calls: seq<AddCall>, n: nat,
                                    rest: seq<AddCall>, last: CloseIo) returns (steps: seq<Step>)
    requires Ready(u, d, w) && d.item == 0 && StopsAt(u.env, u.maxEvents, d.sys.world, w, calls, n)
    requires FreshCalls(d.sys, calls + rest, last)
    ensures IsWork(u, d, steps)
    ensures var e := Ended(u, d, steps);
            && e.sys.world == AddAll(u.env, u.maxEvents, d.sys.world, calls[..n])
            && e.cuts == d.cuts + [n] && e.item == 0 && !e.closing && FreshCalls(e.sys, rest, last)
  {
    var e;
    steps, e := CallsAreWork(u, d, w, calls, n, rest, last);
    FreshDrop(e.sys, calls[n..], rest, last);
    if n == 0 || Passes(u.env, u.maxEvents, d.sys.world, calls, n - 1) {
      var out := if n == |w.slots| then Turn else Quit;
      OneStep(u, e, out);
      WorkAppend(u, d, steps, e, [out], Stepped(u, e, out));
      steps := steps + [out];
    }
  }
}
