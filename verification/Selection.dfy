/**
 * The audited changes of a log in order, and what of them ends up in the
 * store: of each transaction, the first so many.  This is the part of the
 * crash-and-resume argument that does not depend on how the store and the
 * batcher work.
 */
module Selection {
  import opened Common
  import opened Records
  import opened System
  import opened Source

  /**
   * An audited change: the records that may be made of it, which differ in what
   * is drawn at random for them, and whether making one may fail.
   */
  datatype Slot = Slot(makes: RecordBody -> bool, mayFail: bool)

  /** A transaction as the batcher meets it: its audited changes, in order, and its position. */
  datatype TxSlots = TxSlots(slots: seq<Slot>, pos: Position)

  /** One audited change, with the position its record is handed over with. */
  type Item = (Slot, Position)

  /** A record as it is handed to the batcher, with its position. */
  type Fed = (RecordBody, Position)

  /** The first n changes of a transaction. */
  function First(w: TxSlots, n: nat): (items: seq<Item>)
    requires n <= |w.slots|
    ensures |items| == n
    ensures forall i :: 0 <= i < n ==> items[i] == (w.slots[i], w.pos)
  {
    seq(n, i requires 0 <= i < n => (w.slots[i], w.pos))
  }

  /** cuts[i] is how many changes are taken of transaction i. */
  predicate Fits(work: seq<TxSlots>, cuts: seq<nat>) {
    |cuts| <= |work| && forall i :: 0 <= i < |cuts| ==> cuts[i] <= |work[i].slots|
  }

  /** The changes taken, transaction by transaction; each occurs once. */
  function Taken(work: seq<TxSlots>, cuts: seq<nat>): seq<Item>
    requires Fits(work, cuts)
  {
    if cuts == [] then []
    else
      var n := |cuts| - 1;
      Taken(work, cuts[..n]) + First(work[n], cuts[n])
  }

  lemma {:induction false} TakenSnoc(work: seq<TxSlots>, cuts: seq<nat>, n: nat)
    requires Fits(work, cuts) && |cuts| < |work| && n <= |work[|cuts|].slots|
    ensures Fits(work, cuts + [n])
    ensures Taken(work, cuts + [n]) == Taken(work, cuts) + First(work[|cuts|], n)
  {
    assert (cuts + [n])[..|cuts|] == cuts;
  }

  /** Item i of what is taken is change k of transaction j. */
  lemma {:induction false} TakenItem(work: seq<TxSlots>, cuts: seq<nat>, i: nat) returns (j: nat, k: nat)
    requires Fits(work, cuts) && i < |Taken(work, cuts)|
    ensures j < |cuts| && k < cuts[j] && Taken(work, cuts)[i] == (work[j].slots[k], work[j].pos)
    decreases |cuts|
  {
    var n := |cuts| - 1;
    var m := |Taken(work, cuts[..n])|;
    if i < m {
      j, k := TakenItem(work, cuts[..n], i);
    } else {
      j, k := n, i - m;
    }
  }

  lemma {:induction false} FitsAppend(work: seq<TxSlots>, a: seq<nat>, b: seq<nat>)
    requires Fits(work, a) && Fits(work[|a|..], b)
    ensures Fits(work, a + b)
  {
    forall i | |a| <= i < |a + b| ensures (a + b)[i] <= |work[i].slots| {
      assert work[i] == work[|a|..][i - |a|];
    }
  }

  /** What is taken of a list of transactions is what is taken of its first part, then of the rest. */
  lemma {:induction false} TakenAppend(work: seq<TxSlots>, a: seq<nat>, b: seq<nat>)
    requires Fits(work, a) && Fits(work[|a|..], b)
    ensures Fits(work, a + b) && Taken(work, a + b) == Taken(work, a) + Taken(work[|a|..], b)
    decreases |b|
  {
    FitsAppend(work, a, b);
    if b == [] {
      assert a + b == a;
    } else {
      var n := |b| - 1;
      TakenAppend(work, a, b[..n]);
      assert (a + b)[..|a| + n] == a + b[..n];
      Assoc(Taken(work, a), Taken(work[|a|..], b[..n]), First(work[|a| + n], b[n]));
    }
  }

  /** The same cuts up to some transaction, of which at least one change and no more than before is taken. */
  ghost predicate CutShort(cuts: seq<nat>, kept: seq<nat>) {
    && |kept| <= |cuts|
    && (forall i :: 0 <= i < |kept| - 1 ==> kept[i] == cuts[i])
    && (kept != [] ==> 0 < kept[|kept| - 1] <= cuts[|kept| - 1])
  }

  /** The first p of the changes taken are taken by cutting the list short. */
  ghost predicate Truncates(work: seq<TxSlots>, cuts: seq<nat>, p: nat, kept: seq<nat>)
    requires Fits(work, cuts) && p <= |Taken(work, cuts)|
  {
    CutShort(cuts, kept) && Fits(work, kept) && Taken(work, kept) == Taken(work, cuts)[..p]
  }

  /** A prefix that ends within the last transaction. */
  lemma {:induction false} TruncateLast(work: seq<TxSlots>, cuts: seq<nat>, init: seq<nat>, n: nat, q: nat)
    requires Fits(work, cuts) && cuts == init + [n] && Fits(work, init) && 0 < q <= n
    ensures |Taken(work, init)| + q <= |Taken(work, cuts)|
    ensures Truncates(work, cuts, |Taken(work, init)| + q, init + [q])
  {
    assert (init + [n])[|init|] == n;
    TakenSnoc(work, init, n);
    TakenSnoc(work, init, q);
    assert First(work[|init|], q) == First(work[|init|], n)[..q];
  }

  /** A prefix that ends before the last transaction. */
  lemma {:induction false} TruncateEarlier(work: seq<TxSlots>, cuts: seq<nat>, init: seq<nat>, n: nat, p: nat,
                                           kept: seq<nat>)
    requires Fits(work, cuts) && cuts == init + [n] && Fits(work, init) && p <= |Taken(work, init)|
    requires Truncates(work, init, p, kept)
    ensures p <= |Taken(work, cuts)| && Truncates(work, cuts, p, kept)
  {
    assert (init + [n])[|init|] == n;
    TakenSnoc(work, init, n);
  }

  lemma {:induction false} TruncateNone(work: seq<TxSlots>, cuts: seq<nat>)
    requires Fits(work, cuts)
    ensures Truncates(work, cuts, 0, [])
  {
  }

  /** Any prefix of what is taken is taken by a cut-short list of cuts. */
  lemma {:induction false} Truncate(work: seq<TxSlots>, cuts: seq<nat>, p: nat) returns (kept: seq<nat>)
    requires Fits(work, cuts) && p <= |Taken(work, cuts)|
    ensures Truncates(work, cuts, p, kept)
    decreases |cuts|
  {
    if p == 0 {
      kept := [];
      TruncateNone(work, cuts);
    } else {
      var n, init := cuts[|cuts| - 1], cuts[..|cuts| - 1];
      var m := |Taken(work, init)|;
      Snoc(cuts);
      if p <= m {
        kept := Truncate(work, init, p);
        TruncateEarlier(work, cuts, init, n, p, kept);
      } else {
        kept := init + [p - m];
        TruncateLast(work, cuts, init, n, p - m);
      }
    }
  }

  /** The last change taken is of the last transaction, if one of it is taken. */
  lemma {:induction false} LastTaken(work: seq<TxSlots>, cuts: seq<nat>)
    requires Fits(work, cuts) && cuts != [] && cuts[|cuts| - 1] > 0
    ensures var items := Taken(work, cuts);
            items != [] && items[|items| - 1].1 == work[|cuts| - 1].pos
  {
  }

  // ------------------------------------------------------------ nothing skipped

  /** All changes of each of the first n transactions. */
  function Full(work: seq<TxSlots>, n: nat): (cuts: seq<nat>)
    requires n <= |work|
    ensures |cuts| == n && Fits(work, cuts)
    ensures forall i :: 0 <= i < n ==> cuts[i] == |work[i].slots|
  {
    seq(n, i requires 0 <= i < n => |work[i].slots|)
  }

  /** How many audited changes the first n transactions have. */
  function ChangeCount(work: seq<TxSlots>, n: nat): nat
    requires n <= |work|
  {
    if n == 0 then 0 else ChangeCount(work, n - 1) + |work[n - 1].slots|
  }

  lemma {:induction false} LastSame(a: seq<nat>, b: seq<nat>)
    requires |a| == |b| > 0
    ensures a == b <==> a[..|a| - 1] == b[..|a| - 1] && a[|a| - 1] == b[|a| - 1]
  {
    assert a == a[..|a| - 1] + [a[|a| - 1]];
    assert b == b[..|a| - 1] + [b[|a| - 1]];
  }

  /** As many changes are taken as there are exactly if every transaction is taken as a whole. */
  lemma {:induction false} AllTakenIff(work: seq<TxSlots>, cuts: seq<nat>)
    requires Fits(work, cuts)
    ensures |Taken(work, cuts)| <= ChangeCount(work, |cuts|)
    ensures |Taken(work, cuts)| == ChangeCount(work, |cuts|) <==> cuts == Full(work, |cuts|)
    decreases |cuts|
  {
    if cuts != [] {
      var n, full := |cuts| - 1, Full(work, |cuts|);
      AllTakenIff(work, cuts[..n]);
      assert full[..n] == Full(work, n);
      LastSame(cuts, full);
    }
  }

  // ------------------------------------------------------------ from a log

  /** The audited changes of a transaction, in order. */
  type Plan = Transaction -> seq<Slot>

  function WorkOf(plan: Plan, txs: seq<Transaction>): (work: seq<TxSlots>)
    ensures |work| == |txs|
    ensures forall i :: 0 <= i < |txs| ==> work[i] == TxSlots(plan(txs[i]), txs[i].position)
  {
    seq(|txs|, i requires 0 <= i < |txs| => TxSlots(plan(txs[i]), txs[i].position))
  }

  lemma {:induction false} WorkOfRest(plan: Plan, txs: seq<Transaction>, k: nat)
    requires k <= |txs|
    ensures WorkOf(plan, txs[k..]) == WorkOf(plan, txs)[k..]
  {
  }

  // --------------------------------------------------------- records and items

  /** r is a record made of this change, stamped with the position of its transaction. */
  ghost predicate MadeOf(stamps: map<string, Stamp>, r: Record, item: Item) {
    item.0.makes(r.body) && r.id in stamps && stamps[r.id].pos == item.1
  }

  /** r is the record handed over, stamped with the position handed over with it. */
  ghost predicate IsFed(stamps: map<string, Stamp>, r: Record, fed: Fed) {
    r.body == fed.0 && r.id in stamps && stamps[r.id].pos == fed.1
  }

  /** What is handed over are records of these changes, one of each. */
  ghost predicate RecordsOf(fed: seq<Fed>, items: seq<Item>) {
    && |fed| == |items|
    && forall i :: 0 <= i < |fed| ==> items[i].0.makes(fed[i].0) && items[i].1 == fed[i].1
  }

  lemma {:induction false} RecordsOfAppend(f1: seq<Fed>, i1: seq<Item>, f2: seq<Fed>, i2: seq<Item>)
    requires RecordsOf(f1, i1) && RecordsOf(f2, i2)
    ensures RecordsOf(f1 + f2, i1 + i2)
  {
  }

  ghost predicate Matches(stamps: map<string, Stamp>, rs: seq<Record>, items: seq<Item>) {
    |rs| == |items| && forall i :: 0 <= i < |rs| ==> MadeOf(stamps, rs[i], items[i])
  }

  ghost predicate SameRecord(r: Record, q: Record) {
    r.id == q.id && r.body == q.body
  }

  /** The records after a life, in terms of those before it and of what it was handed. */
  ghost predicate Extends(stamps: map<string, Stamp>, before: seq<Record>, rs: seq<Record>, handed: seq<Item>) {
    && |before| <= |rs| <= |before| + |handed|
    && (forall i :: 0 <= i < |before| ==> SameRecord(rs[i], before[i]))
    && (forall i :: 0 <= i < |rs| - |before| ==> MadeOf(stamps, rs[|before| + i], handed[i]))
  }

  /** The same, in terms of the records handed over. */
  ghost predicate Grown(stamps: map<string, Stamp>, before: seq<Record>, rs: seq<Record>, fed: seq<Fed>) {
    && |before| <= |rs| <= |before| + |fed|
    && (forall i :: 0 <= i < |before| ==> SameRecord(rs[i], before[i]))
    && (forall i :: 0 <= i < |rs| - |before| ==> IsFed(stamps, rs[|before| + i], fed[i]))
  }

  lemma {:induction false} GrownExtends(stamps: map<string, Stamp>, before: seq<Record>, rs: seq<Record>,
                                        fed: seq<Fed>, items: seq<Item>)
    requires Grown(stamps, before, rs, fed) && RecordsOf(fed, items)
    ensures Extends(stamps, before, rs, items)
  {
    forall i | 0 <= i < |rs| - |before| ensures MadeOf(stamps, rs[|before| + i], items[i]) {
      assert IsFed(stamps, rs[|before| + i], fed[i]);
    }
  }

  ghost predicate StampsKept(stamps: map<string, Stamp>, later: map<string, Stamp>) {
    forall id :: id in stamps ==> id in later && later[id] == stamps[id]
  }

  lemma {:induction false} MatchesMore(stamps: map<string, Stamp>, before: seq<Record>, items: seq<Item>,
                                       later: map<string, Stamp>, rs: seq<Record>, handed: seq<Item>, p: nat)
    requires Matches(stamps, before, items) && StampsKept(stamps, later) && Extends(later, before, rs, handed)
    requires p == |rs| - |before|
    ensures Matches(later, rs, items + handed[..p])
  {
    forall i | 0 <= i < |rs| ensures MadeOf(later, rs[i], (items + handed[..p])[i]) {
      if i < |before| {
        assert SameRecord(rs[i], before[i]) && MadeOf(stamps, before[i], items[i]);
      } else {
        assert MadeOf(later, rs[|before| + (i - |before|)], handed[i - |before|]);
      }
    }
  }

  // ------------------------------------------------------------- restarting

  /** A log reader: what it reports when started at a position, and where it may be started. */
  datatype Reader = Reader(reports: Position -> seq<TxSlots>, canStart: Position -> bool)

  ghost predicate RestartsAt(rd: Reader, pos: Position, j: nat) {
    rd.canStart(pos) && j < |rd.reports(pos)| ==>
      && rd.canStart(rd.reports(pos)[j].pos)
      && rd.reports(rd.reports(pos)[j].pos) == rd.reports(pos)[j + 1..]
  }

  /** Restarted at the position of a reported transaction, the reader reports the transactions after it. */
  ghost predicate Restartable(rd: Reader) {
    forall pos, j: nat :: RestartsAt(rd, pos, j)
  }

  /**
   * Reading is about to continue at pos with transaction |cuts| of work, and the
   * records rs, stamped as in stamps, are those taken so far.
   */
  ghost predicate Tracks(rd: Reader, work: seq<TxSlots>, stamps: map<string, Stamp>, rs: seq<Record>,
                         pos: Position, cuts: seq<nat>) {
    && Fits(work, cuts) && rd.canStart(pos) && rd.reports(pos) == work[|cuts|..]
    && Matches(stamps, rs, Taken(work, cuts))
    && (rs != [] ==> LastAt(stamps, rs, pos))
  }

  /** Nothing new was stored: the resume position is the one before. */
  lemma {:induction false} SamePlace(stamps: map<string, Stamp>, before: seq<Record>, pos: Position,
                                     later: map<string, Stamp>, rs: seq<Record>, pos': Position, handed: seq<Item>)
    requires (before != [] ==> LastAt(stamps, before, pos)) && Extends(later, before, rs, handed) && |rs| == |before|
    requires StampsKept(stamps, later) && LastAt(later, rs, pos')
    ensures pos' == pos
  {
    assert SameRecord(rs[|rs| - 1], before[|rs| - 1]);
  }

  /** Reading resumes after the transaction of the last record stored. */
  lemma {:induction false} GoesOn(rd: Reader, rest: seq<TxSlots>, pos: Position, kept: seq<nat>,
                                  stamps: map<string, Stamp>, before: seq<Record>, rs: seq<Record>, pos': Position,
                                  handed: seq<Item>)
    requires Restartable(rd) && rd.canStart(pos) && rd.reports(pos) == rest
    requires Fits(rest, kept) && kept != [] && kept[|kept| - 1] > 0
    requires Extends(stamps, before, rs, handed) && LastAt(stamps, rs, pos')
    requires |rs| > |before| && Taken(rest, kept) == handed[..|rs| - |before|]
    ensures rd.canStart(pos') && rd.reports(pos') == rest[|kept|..]
  {
    var p := |rs| - |before|;
    LastTaken(rest, kept);
    assert MadeOf(stamps, rs[|before| + (p - 1)], handed[p - 1]);
    assert RestartsAt(rd, pos, |kept| - 1);
  }

  /** One life: of what it was handed it stored a part, and the next life reads on after that. */
  lemma {:induction false} TrackLife(rd: Reader, work: seq<TxSlots>, rest: seq<TxSlots>,
                                     stamps: map<string, Stamp>, before: seq<Record>, pos: Position, cuts: seq<nat>,
                                     later: map<string, Stamp>, rs: seq<Record>, pos': Position, handedCuts: seq<nat>)
    returns (kept: seq<nat>)
    requires Restartable(rd) && Tracks(rd, work, stamps, before, pos, cuts)
    requires rest == work[|cuts|..] && Fits(rest, handedCuts)
    requires Extends(later, before, rs, Taken(rest, handedCuts)) && StampsKept(stamps, later) && LastAt(later, rs, pos')
    ensures CutShort(handedCuts, kept) && Fits(rest, kept) && |Taken(rest, kept)| == |rs| - |before|
    ensures Tracks(rd, work, later, rs, pos', cuts + kept)
  {
    var handed, p := Taken(rest, handedCuts), |rs| - |before|;
    kept := Truncate(rest, handedCuts, p);
    MatchesMore(stamps, before, Taken(work, cuts), later, rs, handed, p);
    if p == 0 {
      NothingTaken(rest, kept);
      SamePlace(stamps, before, pos, later, rs, pos', handed);
    } else {
      GoesOn(rd, rest, pos, kept, later, before, rs, pos', handed);
    }
    TracksOn(rd, work, rest, later, rs, pos', cuts, kept, handed[..p]);
  }

  lemma {:induction false} TracksOn(rd: Reader, work: seq<TxSlots>, rest: seq<TxSlots>, stamps: map<string, Stamp>,
                                    rs: seq<Record>, pos: Position, cuts: seq<nat>, kept: seq<nat>, items: seq<Item>)
    requires Fits(work, cuts) && rest == work[|cuts|..] && Fits(rest, kept) && Taken(rest, kept) == items
    requires rd.canStart(pos) && rd.reports(pos) == rest[|kept|..] && LastAt(stamps, rs, pos)
    requires Matches(stamps, rs, Taken(work, cuts) + items)
    ensures Tracks(rd, work, stamps, rs, pos, cuts + kept)
  {
    TakenAppend(work, cuts, kept);
    assert work[|cuts + kept|..] == rest[|kept|..];
  }

  lemma {:induction false} NothingTaken(work: seq<TxSlots>, kept: seq<nat>)
    requires Fits(work, kept) && Taken(work, kept) == [] && (kept != [] ==> kept[|kept| - 1] > 0)
    ensures kept == []
  {
    if kept != [] {
      LastTaken(work, kept);
    }
  }

  // ---------------------------------------------------------------- legs of a history

  /**
   * A life that started with transaction `first`: how many records of that one
   * and the following ones are in the store because of it, and which of them,
   * counted from `first`, it left early.
   */
  datatype Leg = Leg(first: nat, cuts: seq<nat>, dropped: set<nat>)

  /** The checkpoint of this life fell on the last record of a transaction. */
  predicate AtEnd(work: seq<TxSlots>, leg: Leg) {
    leg.cuts != [] ==>
      var last := leg.first + |leg.cuts| - 1;
      last < |work| && leg.cuts[|leg.cuts| - 1] == |work[last].slots|
  }

  /** No transaction before the last of this life was left early. */
  predicate NoneDropped(leg: Leg) {
    forall i :: 0 <= i < |leg.cuts| - 1 ==> i !in leg.dropped
  }

  predicate Unbroken(work: seq<TxSlots>, leg: Leg) {
    AtEnd(work, leg) && NoneDropped(leg)
  }

  /** Nothing of a transaction only if it has nothing, or its first change could not be built. */
  predicate MayBeNone(w: TxSlots, n: nat) {
    n == 0 ==> w.slots == [] || w.slots[0].mayFail
  }

  /**
   * Something is stored of the last transaction and of each other one that has
   * anything and whose first change could be built, and all of it but for the
   * transactions left early and perhaps the last one.
   */
  ghost predicate LegOk(work: seq<TxSlots>, leg: Leg) {
    && leg.first <= |work| && Fits(work[leg.first..], leg.cuts)
    && (leg.cuts != [] ==> 0 < leg.cuts[|leg.cuts| - 1])
    && (forall i :: 0 <= i < |leg.cuts| ==> MayBeNone(work[leg.first..][i], leg.cuts[i]))
    && forall i :: 0 <= i < |leg.cuts| - 1 ==>
         (i in leg.dropped <==> leg.cuts[i] < |work[leg.first..][i].slots|)
  }

  /** A life takes every one of its transactions as a whole exactly if it left none early and ended at an end. */
  lemma {:induction false} WholeIff(work: seq<TxSlots>, leg: Leg)
    requires LegOk(work, leg)
    ensures leg.cuts == Full(work[leg.first..], |leg.cuts|) <==> Unbroken(work, leg)
  {
    var rest, n := work[leg.first..], |leg.cuts| - 1;
    if AtEnd(work, leg) && NoneDropped(leg) {
      forall i | 0 <= i < |leg.cuts| ensures leg.cuts[i] == |rest[i].slots| {
        if i < n {
          assert i !in leg.dropped;
        }
      }
    }
    if leg.cuts == Full(rest, |leg.cuts|) {
      forall i | 0 <= i < n ensures i !in leg.dropped {
        assert leg.cuts[i] == |rest[i].slots|;
      }
    }
  }

  function CutsOf(legs: seq<Leg>): seq<nat> {
    if legs == [] then [] else legs[0].cuts + CutsOf(legs[1..])
  }

  /** Each leg begins where the one before it ends, the first with transaction `first`. */
  ghost predicate LegsOk(work: seq<TxSlots>, first: nat, legs: seq<Leg>)
    decreases |legs|
  {
    legs == [] ||
    (legs[0].first == first && LegOk(work, legs[0]) && LegsOk(work, first + |legs[0].cuts|, legs[1..]))
  }

  lemma {:induction false} FullSplit(work: seq<TxSlots>, a: seq<nat>, b: seq<nat>)
    requires Fits(work, a) && Fits(work[|a|..], b)
    ensures Fits(work, a + b)
    ensures a + b == Full(work, |a + b|) <==> a == Full(work, |a|) && b == Full(work[|a|..], |b|)
  {
    FitsAppend(work, a, b);
    var full, rest := Full(work, |a + b|), work[|a|..];
    assert full == Full(work, |a|) + Full(rest, |b|);
    Cut(a, b);
    Cut(Full(work, |a|), Full(rest, |b|));
  }

  /** Every transaction up to the last one stored is stored as a whole exactly if this holds of every life. */
  lemma {:induction false} NothingSkippedIff(work: seq<TxSlots>, first: nat, rest: seq<TxSlots>, legs: seq<Leg>)
    requires first <= |work| && rest == work[first..] && LegsOk(work, first, legs)
    ensures Fits(rest, CutsOf(legs))
    ensures CutsOf(legs) == Full(rest, |CutsOf(legs)|) <==> forall leg :: leg in legs ==> Unbroken(work, leg)
    decreases |legs|, 0
  {
    if legs != [] {
      SkippedStep(work, first, rest, legs[0], legs[1..]);
      assert legs == [legs[0]] + legs[1..];
    }
  }

  lemma {:induction false} SkippedStep(work: seq<TxSlots>, first: nat, rest: seq<TxSlots>,
                                       leg: Leg, later: seq<Leg>)
    requires first <= |work| && rest == work[first..]
    requires leg.first == first && LegOk(work, leg) && LegsOk(work, first + |leg.cuts|, later)
    ensures var cuts := leg.cuts + CutsOf(later);
            && Fits(rest, cuts)
            && (cuts == Full(rest, |cuts|) <==> forall l :: l in [leg] + later ==> Unbroken(work, l))
    decreases |later|, 1
  {
    var n, cuts := |leg.cuts|, CutsOf(later);
    assert rest[n..] == work[first + n..];
    NothingSkippedIff(work, first + n, rest[n..], later);
    WholeIff(work, leg);
    FullSplit(rest, leg.cuts, cuts);
    UnbrokenFirst(work, leg, later);
  }

  lemma {:induction false} UnbrokenFirst(work: seq<TxSlots>, leg: Leg, rest: seq<Leg>)
    ensures (forall l :: l in [leg] + rest ==> Unbroken(work, l)) <==>
            Unbroken(work, leg) && forall l :: l in rest ==> Unbroken(work, l)
  {
    if forall l :: l in [leg] + rest ==> Unbroken(work, l) {
      assert leg in [leg] + rest;
      forall l | l in rest ensures Unbroken(work, l) {
        assert l in [leg] + rest;
      }
    }
  }
}
