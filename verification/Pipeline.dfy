/** The handling of transactions: internal/pipeline/pipeline.go. */
module Pipeline {
  import opened Common
  import opened Records
  import opened Batching
  import opened Source
  import opened Config
  import opened Attribution
  import opened Snapshot

  // -------------------------------------------------------------- transactions

  /** The change is to be recorded under this configuration. */
  predicate Audited(tables: map<string, TableConfig>, change: RowChange) {
    && change.table != "_audit_config" && change.table != "_audit_context"
    && change.table in tables && tables[change.table].enabled
  }

  function AuditedIn(tables: map<string, TableConfig>, changes: seq<RowChange>): seq<RowChange> {
    if changes == [] then []
    else
      var init, last := changes[..|changes| - 1], changes[|changes| - 1];
      AuditedIn(tables, init) + if Audited(tables, last) then [last] else []
  }

  function RecordFor(builder: Builder, tables: map<string, TableConfig>, tx: Transaction, change: RowChange,
                     draw: nat): Option<RecordBody>
  {
    if change.table in tables then
      BodyOf(builder, change, tables[change.table], ActorFor(tables, tx.changes, change.table), tx.id,
             tx.committedAt, draw)
    else None
  }

  /**
   * A record of this change: the change is on an enabled table that is not one
   * of the two internal ones, and the record says what it was and who made it.
   */
  ghost predicate IsRecordOf(builder: Builder, tables: map<string, TableConfig>, tx: Transaction, change: RowChange,
                             body: RecordBody) {
    && change.table != "_audit_config" && change.table != "_audit_context"
    && change.table in tables && tables[change.table].enabled
    && exists actor :: AttributedTo(tables, tx.changes, change.table, actor) &&
                       Tells(builder, change, tables[change.table], actor, tx.id, tx.committedAt, body)
  }

  lemma {:induction false} RecordTells(builder: Builder, tables: map<string, TableConfig>, tx: Transaction,
                                       change: RowChange, draw: nat)
    requires Audited(tables, change)
    ensures var body := RecordFor(builder, tables, tx, change, draw);
            body.Some? ==> IsRecordOf(builder, tables, tx, change, body.value)
  {
    var actor := ActorFor(tables, tx.changes, change.table);
    ActorIsAttributed(tables, tx.changes, change.table);
    BodyTells(builder, change, tables[change.table], actor, tx.id, tx.committedAt, draw);
  }

  lemma {:induction false} AppliedAllSnoc(dec: ColumnDecoder, tables: map<string, TableConfig>,
                                          changes: seq<RowChange>, change: RowChange)
    ensures AppliedAll(dec, tables, changes + [change]) == Applied(dec, AppliedAll(dec, tables, changes), change)
    decreases |changes|
  {
    if changes == [] {
      assert [change][1..] == [];
    } else {
      assert (changes + [change])[1..] == changes[1..] + [change];
      AppliedAllSnoc(dec, Applied(dec, tables, changes[0]), changes[1..], change);
    }
  }

  /** Work lists exactly the audited changes, in order: it is the transaction's changes with the others left out. */
  lemma {:induction false} WorkMembers(tables: map<string, TableConfig>, changes: seq<RowChange>, c: RowChange)
    ensures c in AuditedIn(tables, changes) <==> c in changes && Audited(tables, c)
  {
    if changes != [] {
      var init, last := changes[..|changes| - 1], changes[|changes| - 1];
      WorkMembers(tables, init, c);
      assert changes == init + [last];
    }
  }

  /** idx are the places of the audited changes, in order. */
  ghost predicate PlacesOf(tables: map<string, TableConfig>, changes: seq<RowChange>, idx: seq<nat>) {
    && |idx| == |AuditedIn(tables, changes)|
    && (forall k, l :: 0 <= k < l < |idx| ==> idx[k] < idx[l])
    && (forall k :: 0 <= k < |idx| ==>
          idx[k] < |changes| && AuditedIn(tables, changes)[k] == changes[idx[k]] && Audited(tables, changes[idx[k]]))
    && forall i :: 0 <= i < |changes| && Audited(tables, changes[i]) ==> i in idx
  }

  lemma {:induction false} FindPlaces(tables: map<string, TableConfig>, changes: seq<RowChange>) returns (idx: seq<nat>)
    ensures PlacesOf(tables, changes, idx)
  {
    if changes == [] {
      idx := [];
    } else {
      var n := |changes| - 1;
      var before := FindPlaces(tables, changes[..n]);
      idx := before + if Audited(tables, changes[n]) then [n] else [];
      forall i | 0 <= i < |changes| && Audited(tables, changes[i]) ensures i in idx {
        if i < n {
          assert changes[..n][i] == changes[i];
          assert i in before;
        }
      }
    }
  }

  /** One more change: either it is the next audited one, or it is not audited. */
  lemma {:induction false} AuditedStep(tables: map<string, TableConfig>, changes: seq<RowChange>, i: nat)
    requires i < |changes|
    ensures var now, next := AuditedIn(tables, changes[..i]), AuditedIn(tables, changes[..i + 1]);
            var work := AuditedIn(tables, changes);
            && next <= work
            && (Audited(tables, changes[i]) ==> |now| < |work| && work[|now|] == changes[i] && |next| == |now| + 1)
            && (!Audited(tables, changes[i]) ==> next == now)
  {
    assert changes[..i + 1][..i] == changes[..i];
    AuditedPrefix(tables, changes, i + 1);
  }

  /** The audited changes of a prefix are a prefix of the audited changes. */
  lemma {:induction false} AuditedPrefix(tables: map<string, TableConfig>, changes: seq<RowChange>, n: nat)
    requires n <= |changes|
    ensures AuditedIn(tables, changes[..n]) <= AuditedIn(tables, changes)
    decreases |changes| - n
  {
    if n == |changes| {
      assert changes[..n] == changes;
    } else {
      AuditedPrefix(tables, changes, n + 1);
      assert changes[..n + 1][..n] == changes[..n];
    }
  }

  /**
   * A transaction and what it is processed with: the batcher's surroundings and
   * limit, the configuration after its own rows, and for the k-th record its id,
   * what is drawn for it, and what its close meets if it comes to one.
   */
  datatype TxCase = TxCase(
    env: Env,
    maxEvents: nat,
    builder: Builder,
    tables: map<string, TableConfig>,
    tx: Transaction,
    ids: nat -> string,
    draws: nat -> nat,
    ios: nat -> CloseIo)

  /** The audited changes of the transaction. */
  function WorkIn(x: TxCase): seq<RowChange> {
    AuditedIn(x.tables, x.tx.changes)
  }

  /** The record of the k-th audited change, if it can be built. */
  function RecordAt(x: TxCase, k: nat): Option<RecordBody>
    requires k < |WorkIn(x)|
  {
    RecordFor(x.builder, x.tables, x.tx, WorkIn(x)[k], x.draws(k))
  }

  /** The records of the first n audited changes, up to the first that cannot be built. */
  function Planned(x: TxCase, n: nat): (bodies: seq<RecordBody>)
    requires n <= |WorkIn(x)|
    ensures |bodies| <= n
    ensures forall k :: 0 <= k < |bodies| ==> RecordAt(x, k) == Some(bodies[k])
    ensures |bodies| < n ==> RecordAt(x, |bodies|) == None
  {
    if n == 0 then []
    else
      var before := Planned(x, n - 1);
      if |before| == n - 1 && RecordAt(x, n - 1).Some? then before + [RecordAt(x, n - 1).value] else before
  }

  /** Every audited change of the transaction can be built. */
  ghost predicate AllBuild(x: TxCase) {
    forall k :: 0 <= k < |WorkIn(x)| ==> RecordAt(x, k).Some?
  }

  /** The calls of AddRecord the transaction makes if none of them fails. */
  function CallsFor(x: TxCase): (calls: seq<AddCall>)
    ensures |calls| <= |WorkIn(x)|
    ensures forall k :: 0 <= k < |calls| ==>
              RecordAt(x, k) == Some(calls[k].body) &&
              calls[k] == AddCall(x.ids(k), calls[k].body, x.tx.position, x.ios(k))
    ensures |calls| < |WorkIn(x)| ==> RecordAt(x, |calls|) == None
  {
    var bodies := Planned(x, |WorkIn(x)|);
    seq(|bodies|, k requires 0 <= k < |bodies| => AddCall(x.ids(k), bodies[k], x.tx.position, x.ios(k)))
  }

  /** Every audited change comes to a call exactly if each can be built. */
  lemma {:induction false} AllBuildIff(x: TxCase)
    ensures AllBuild(x) <==> |CallsFor(x)| == |WorkIn(x)|
  {
    if |CallsFor(x)| < |WorkIn(x)| {
      assert RecordAt(x, |CallsFor(x)|).None?;
    }
  }

  datatype ProcessError = ErrBuild | ErrAdd(cause: CloseError)

  function AsResult(o: Result<(), CloseError>): Result<(), ProcessError> {
    match o
    case Ok(_) => Ok(())
    case Err(e) => Err(ErrAdd(e))
  }

  /**
   * Where a transaction with these calls stops, and with what result: after a
   * call that fails; or after all calls, and then without error exactly if they
   * are all there are to make.
   */
  ghost predicate EndsAs(env: Env, maxEvents: nat, w: World, calls: seq<AddCall>, allBuild: bool,
                         n: nat, r: Result<(), ProcessError>) {
    && n <= |calls|
    && (forall k :: 0 <= k < n - 1 ==> Passes(env, maxEvents, w, calls, k))
    && if n > 0 && !Passes(env, maxEvents, w, calls, n - 1)
       then r == AsResult(AddOutcome(env, maxEvents, AddAll(env, maxEvents, w, calls[..n - 1]), calls[n - 1]))
       else n == |calls| && r == if allBuild then Ok(()) else Err(ErrBuild)
  }

  /** The records handed over are those of the first calls. */
  predicate AreFirst(recs: seq<RecordRef>, calls: seq<AddCall>) {
    |recs| <= |calls| && forall k :: 0 <= k < |recs| ==> recs[k].id == calls[k].id && recs[k].body == calls[k].body
  }

  /** The first calls were made, those of recs, and this is how it ended. */
  ghost predicate Stopped(env: Env, maxEvents: nat, w: World, calls: seq<AddCall>, allBuild: bool,
                          recs: seq<RecordRef>, r: Result<(), ProcessError>, after: World) {
    && AreFirst(recs, calls)
    && EndsAs(env, maxEvents, w, calls, allBuild, |recs|, r)
    && after == AddAll(env, maxEvents, w, calls[..|recs|])
  }

  /** How a transaction is handled: the records handed over, the result, and the world after it. */
  ghost predicate Handled(x: TxCase, w: World, recs: seq<RecordRef>, r: Result<(), ProcessError>, after: World) {
    Stopped(x.env, x.maxEvents, w, CallsFor(x), AllBuild(x), recs, r, after)
  }

  /** Where it stops, and how, is settled by the state before and what the closes meet. */
  lemma {:induction false} EndsOneWay(env: Env, maxEvents: nat, w: World, calls: seq<AddCall>, allBuild: bool,
                                      n: nat, r: Result<(), ProcessError>, m: nat, q: Result<(), ProcessError>)
    requires EndsAs(env, maxEvents, w, calls, allBuild, n, r) && EndsAs(env, maxEvents, w, calls, allBuild, m, q)
    ensures n == m && r == q
  {
  }

  /**
   * All audited changes of a transaction are recorded exactly if each of them
   * can be built and every close triggered before the last record
   * succeeds; and there is no error exactly if the close triggered by the last
   * one, if any, succeeds too.
   */
  lemma {:induction false} AllRecordedIff(x: TxCase, w: World, recs: seq<RecordRef>,
                                          r: Result<(), ProcessError>, after: World)
    requires Handled(x, w, recs, r, after)
    ensures var calls := CallsFor(x);
            && (|recs| == |WorkIn(x)| <==>
                && AllBuild(x)
                && forall k :: 0 <= k < |calls| - 1 ==> Passes(x.env, x.maxEvents, w, calls, k))
            && (r == Ok(()) <==>
                && AllBuild(x)
                && forall k :: 0 <= k < |calls| ==> Passes(x.env, x.maxEvents, w, calls, k))
  {
    AllBuildIff(x);
    EndsIff(x.env, x.maxEvents, w, CallsFor(x), AllBuild(x), |recs|, r);
  }

  /**
   * The records handed over are records of the changes at idx, one of each, in
   * the transaction's order; and a change on an enabled table that is not one of
   * the two internal ones has none only if there was an error before it.
   */
  ghost predicate HandedOver(builder: Builder, tables: map<string, TableConfig>, tx: Transaction,
                             recs: seq<RecordRef>, r: Result<(), ProcessError>, idx: seq<nat>) {
    AreRecordsOf(builder, tables, tx, recs, idx) && LeavesOutNone(tables, tx.changes, r, idx)
  }

  ghost predicate AreRecordsOf(builder: Builder, tables: map<string, TableConfig>, tx: Transaction,
                               recs: seq<RecordRef>, idx: seq<nat>) {
    && |idx| == |recs| && (forall k, l :: 0 <= k < l < |idx| ==> idx[k] < idx[l])
    && forall k :: 0 <= k < |recs| ==> HandedAt(builder, tables, tx, recs[k].body, idx[k])
  }

  /** body is a record of change i of the transaction. */
  ghost predicate HandedAt(builder: Builder, tables: map<string, TableConfig>, tx: Transaction, body: RecordBody,
                           i: nat) {
    i < |tx.changes| && IsRecordOf(builder, tables, tx, tx.changes[i], body)
  }

  ghost predicate LeavesOutNone(tables: map<string, TableConfig>, changes: seq<RowChange>,
                                r: Result<(), ProcessError>, idx: seq<nat>) {
    forall i :: 0 <= i < |changes| && changes[i].table != "_audit_config" && changes[i].table != "_audit_context" &&
                changes[i].table in tables && tables[changes[i].table].enabled ==>
      i in idx || (r.Err? && forall k :: 0 <= k < |idx| ==> idx[k] < i)
  }

  lemma {:induction false} OneHanded(x: TxCase, w: World, recs: seq<RecordRef>, r: Result<(), ProcessError>,
                                     after: World, all: seq<nat>, k: nat)
    requires Handled(x, w, recs, r, after) && PlacesOf(x.tables, x.tx.changes, all) && k < |recs|
    ensures k < |all| && HandedAt(x.builder, x.tables, x.tx, recs[k].body, all[k])
  {
    assert RecordAt(x, k) == Some(recs[k].body);
    RecordTells(x.builder, x.tables, x.tx, WorkIn(x)[k], x.draws(k));
  }

  /** An audited change is at one of the first n places, or behind them. */
  lemma {:induction false} InOrBehind(tables: map<string, TableConfig>, changes: seq<RowChange>, all: seq<nat>,
                                      n: nat, i: nat)
    requires PlacesOf(tables, changes, all) && n <= |all| && i < |changes| && Audited(tables, changes[i])
    ensures i in all[..n] || (n < |all| && forall k :: 0 <= k < n ==> all[k] < i)
  {
    var m :| 0 <= m < |all| && all[m] == i;
    if m < n {
      assert all[..n][m] == i;
    }
  }

  lemma {:induction false} EachHanded(x: TxCase, w: World, recs: seq<RecordRef>, r: Result<(), ProcessError>,
                                      after: World, all: seq<nat>)
    requires Handled(x, w, recs, r, after) && PlacesOf(x.tables, x.tx.changes, all) && |recs| <= |all|
    ensures forall k :: 0 <= k < |recs| ==> HandedAt(x.builder, x.tables, x.tx, recs[k].body, all[k])
  {
    forall k | 0 <= k < |recs| ensures HandedAt(x.builder, x.tables, x.tx, recs[k].body, all[k]) {
      OneHanded(x, w, recs, r, after, all, k);
    }
  }

  lemma {:induction false} FirstHanded(builder: Builder, tables: map<string, TableConfig>, tx: Transaction,
                                       recs: seq<RecordRef>, all: seq<nat>)
    requires (forall k, l :: 0 <= k < l < |all| ==> all[k] < all[l]) && |recs| <= |all|
    requires forall k :: 0 <= k < |recs| ==> HandedAt(builder, tables, tx, recs[k].body, all[k])
    ensures AreRecordsOf(builder, tables, tx, recs, all[..|recs|])
  {
  }

  lemma {:induction false} LeavesNone(tables: map<string, TableConfig>, changes: seq<RowChange>, all: seq<nat>,
                                      n: nat, r: Result<(), ProcessError>)
    requires PlacesOf(tables, changes, all) && n <= |all| && (r.Ok? ==> n == |all|)
    ensures LeavesOutNone(tables, changes, r, all[..n])
  {
    forall i | 0 <= i < |changes| && Audited(tables, changes[i])
      ensures i in all[..n] || (r.Err? && forall k :: 0 <= k < n ==> all[k] < i)
    {
      InOrBehind(tables, changes, all, n, i);
    }
  }

  lemma {:induction false} HandledHandsOver(x: TxCase, w: World, recs: seq<RecordRef>,
                                            r: Result<(), ProcessError>, after: World) returns (idx: seq<nat>)
    requires Handled(x, w, recs, r, after)
    ensures HandedOver(x.builder, x.tables, x.tx, recs, r, idx)
  {
    var all := FindPlaces(x.tables, x.tx.changes);
    OkHandsAll(x, w, recs, r, after);
    idx := all[..|recs|];
    EachHanded(x, w, recs, r, after, all);
    FirstHanded(x.builder, x.tables, x.tx, recs, all);
    LeavesNone(x.tables, x.tx.changes, all, |recs|, r);
  }

  lemma {:induction false} OkHandsAll(x: TxCase, w: World, recs: seq<RecordRef>,
                                      r: Result<(), ProcessError>, after: World)
    requires Handled(x, w, recs, r, after)
    ensures |recs| <= |WorkIn(x)| && (r.Ok? ==> |recs| == |WorkIn(x)|)
  {
    AllBuildIff(x);
    EndsIff(x.env, x.maxEvents, w, CallsFor(x), AllBuild(x), |recs|, r);
  }

  lemma {:induction false} EndsIff(env: Env, maxEvents: nat, w: World, calls: seq<AddCall>, allBuild: bool,
                                   n: nat, r: Result<(), ProcessError>)
    requires EndsAs(env, maxEvents, w, calls, allBuild, n, r)
    ensures n == |calls| <==> forall k :: 0 <= k < |calls| - 1 ==> Passes(env, maxEvents, w, calls, k)
    ensures r == Ok(()) <==> allBuild && forall k :: 0 <= k < |calls| ==> Passes(env, maxEvents, w, calls, k)
  {
    if n < |calls| {
      assert n > 0 && !Passes(env, maxEvents, w, calls, n - 1);
    }
  }

  /** The next call, when change i is reached: there is one if it is audited and can be built. */
  lemma {:induction false} NextCall(x: TxCase, i: nat)
    requires i < |x.tx.changes|
    ensures var n, calls, change := |AuditedIn(x.tables, x.tx.changes[..i])|, CallsFor(x), x.tx.changes[i];
            var body := RecordFor(x.builder, x.tables, x.tx, change, x.draws(n));
            && |AuditedIn(x.tables, x.tx.changes[..i + 1])| == (if Audited(x.tables, change) then n + 1 else n)
            && (Audited(x.tables, change) && n <= |calls| ==>
                  if body.Some? then n < |calls| && calls[n] == AddCall(x.ids(n), body.value, x.tx.position, x.ios(n))
                  else n == |calls| && !AllBuild(x))
  {
    var n := |AuditedIn(x.tables, x.tx.changes[..i])|;
    AuditedStep(x.tables, x.tx.changes, i);
    AllBuildIff(x);
    if Audited(x.tables, x.tx.changes[i]) {
      assert RecordAt(x, n) == RecordFor(x.builder, x.tables, x.tx, x.tx.changes[i], x.draws(n));
    }
  }

  /** The first n calls have been made, none of them failed, and recs are their records. */
  ghost predicate Made(env: Env, maxEvents: nat, w: World, calls: seq<AddCall>, n: nat, recs: seq<RecordRef>,
                       after: World) {
    && |recs| == n && AreFirst(recs, calls)
    && (forall k :: 0 <= k < n ==> Passes(env, maxEvents, w, calls, k))
    && after == AddAll(env, maxEvents, w, calls[..n])
  }

  /** Change i of the transaction is reached, with n records made. */
  ghost predicate MadeUpTo(x: TxCase, i: nat, n: nat, w: World, recs: seq<RecordRef>, after: World)
    requires i <= |x.tx.changes|
  {
    && n == |AuditedIn(x.tables, x.tx.changes[..i])|
    && Made(x.env, x.maxEvents, w, CallsFor(x), n, recs, after)
  }

  /** One change: nothing if it is not audited or cannot be built, and else one call of AddRecord. */
  ghost predicate ChangeHandled(x: TxCase, change: RowChange, n: nat, before: World,
                                recs: seq<RecordRef>, r: Result<(), ProcessError>, after: World) {
    var body := RecordFor(x.builder, x.tables, x.tx, change, x.draws(n));
    if Audited(x.tables, change) && body.Some? then
      var c := AddCall(x.ids(n), body.value, x.tx.position, x.ios(n));
      && |recs| == 1 && recs[0].id == x.ids(n) && recs[0].body == body.value
      && after == AddOnce(x.env, x.maxEvents, before, c)
      && r == AsResult(AddOutcome(x.env, x.maxEvents, before, c))
    else
      recs == [] && after == before && r == if Audited(x.tables, change) then Err(ErrBuild) else Ok(())
  }

  /** Adding the record of a change fails exactly if it fills the batch and the close of that does not succeed. */
  lemma {:induction false} AddFailsOnce(x: TxCase, change: RowChange, n: nat, before: World,
                                        recs: seq<RecordRef>, r: Result<(), ProcessError>, after: World)
    requires ChangeHandled(x, change, n, before, recs, r, after)
    ensures var body := RecordFor(x.builder, x.tables, x.tx, change, x.draws(n));
            (r.Err? && r.error.ErrAdd?) <==>
              && Audited(x.tables, change) && body.Some?
              && var filled := Appended(before, AddCall(x.ids(n), body.value, x.tx.position, x.ios(n)));
                 |filled.buffer.records| >= x.maxEvents && !Closes(x.env, filled, x.ios(n))
    ensures r.Err? && r.error.ErrAdd? ==>
              var body := RecordFor(x.builder, x.tables, x.tx, change, x.draws(n)).value;
              CloseOutcome(x.env, Appended(before, AddCall(x.ids(n), body, x.tx.position, x.ios(n))), x.ios(n)) ==
              Err(r.error.cause)
  {
    var body := RecordFor(x.builder, x.tables, x.tx, change, x.draws(n));
    if Audited(x.tables, change) && body.Some? {
      AddFailsIff(x.env, x.maxEvents, before, AddCall(x.ids(n), body.value, x.tx.position, x.ios(n)));
    }
  }

  /** So a record handed over for a change is a record of it. */
  lemma {:induction false} HandledTells(x: TxCase, change: RowChange, n: nat, before: World,
                                        recs: seq<RecordRef>, r: Result<(), ProcessError>, after: World)
    requires ChangeHandled(x, change, n, before, recs, r, after)
    ensures |recs| <= 1 && (recs != [] ==> IsRecordOf(x.builder, x.tables, x.tx, change, recs[0].body))
    ensures r == Ok(()) ==>
              (recs != [] <==>
                && change.table != "_audit_config" && change.table != "_audit_context"
                && change.table in x.tables && x.tables[change.table].enabled)
  {
    if Audited(x.tables, change) {
      RecordTells(x.builder, x.tables, x.tx, change, x.draws(n));
    }
  }

  lemma {:induction false} FirstMore(recs: seq<RecordRef>, calls: seq<AddCall>, rec: RecordRef)
    requires AreFirst(recs, calls) && |recs| < |calls|
    requires rec.id == calls[|recs|].id && rec.body == calls[|recs|].body
    ensures AreFirst(recs + [rec], calls)
  {
  }

  lemma {:induction false} CallPassed(env: Env, maxEvents: nat, w: World, calls: seq<AddCall>, n: nat,
                                      recs: seq<RecordRef>, before: World, rec: RecordRef)
    requires Made(env, maxEvents, w, calls, n, recs, before) && n < |calls|
    requires rec.id == calls[n].id && rec.body == calls[n].body
    requires AddOutcome(env, maxEvents, before, calls[n]).Ok?
    ensures Made(env, maxEvents, w, calls, n + 1, recs + [rec], AddOnce(env, maxEvents, before, calls[n]))
  {
    FirstMore(recs, calls, rec);
    AddAllNext(env, maxEvents, w, calls, n);
    assert Passes(env, maxEvents, w, calls, n);
  }

  lemma {:induction false} CallFailed(env: Env, maxEvents: nat, w: World, calls: seq<AddCall>, allBuild: bool, n: nat,
                                      recs: seq<RecordRef>, before: World, rec: RecordRef)
    requires Made(env, maxEvents, w, calls, n, recs, before) && n < |calls|
    requires rec.id == calls[n].id && rec.body == calls[n].body
    requires AddOutcome(env, maxEvents, before, calls[n]).Err?
    ensures Stopped(env, maxEvents, w, calls, allBuild, recs + [rec],
                    AsResult(AddOutcome(env, maxEvents, before, calls[n])),
                    AddOnce(env, maxEvents, before, calls[n]))
  {
    FirstMore(recs, calls, rec);
    AddAllNext(env, maxEvents, w, calls, n);
    assert !Passes(env, maxEvents, w, calls, n);
  }

  /** A change for which nothing is made: the transaction goes on, or ends here because it cannot be built. */
  lemma {:induction false} MadeNone(x: TxCase, i: nat, n: nat, w: World, recs: seq<RecordRef>, before: World)
    requires i < |x.tx.changes| && MadeUpTo(x, i, n, w, recs, before)
    ensures !Audited(x.tables, x.tx.changes[i]) ==> MadeUpTo(x, i + 1, n, w, recs, before)
    ensures Audited(x.tables, x.tx.changes[i]) &&
            RecordFor(x.builder, x.tables, x.tx, x.tx.changes[i], x.draws(n)).None? ==>
              Handled(x, w, recs, Err(ErrBuild), before)
  {
    NextCall(x, i);
  }

  /** A change for which a record is made. */
  lemma {:induction false} MadeOne(x: TxCase, i: nat, n: nat, w: World, recs: seq<RecordRef>, before: World,
                                   rec: RecordRef)
    requires i < |x.tx.changes| && MadeUpTo(x, i, n, w, recs, before)
    requires Audited(x.tables, x.tx.changes[i]) && rec.id == x.ids(n)
    requires RecordFor(x.builder, x.tables, x.tx, x.tx.changes[i], x.draws(n)) == Some(rec.body)
    ensures var c := AddCall(rec.id, rec.body, x.tx.position, x.ios(n));
            var after, r := AddOnce(x.env, x.maxEvents, before, c), AddOutcome(x.env, x.maxEvents, before, c);
            && (r.Ok? ==> MadeUpTo(x, i + 1, n + 1, w, recs + [rec], after))
            && (r.Err? ==> Handled(x, w, recs + [rec], AsResult(r), after))
  {
    NextCall(x, i);
    var calls := CallsFor(x);
    if AddOutcome(x.env, x.maxEvents, before, calls[n]).Ok? {
      CallPassed(x.env, x.maxEvents, w, calls, n, recs, before, rec);
    } else {
      CallFailed(x.env, x.maxEvents, w, calls, AllBuild(x), n, recs, before, rec);
    }
  }

  /** After change i the transaction goes on with m records made, or it has ended. */
  ghost predicate GoesOn(x: TxCase, i: nat, m: nat, w: World, recs: seq<RecordRef>, r: Result<(), ProcessError>,
                         after: World)
    requires i < |x.tx.changes|
  {
    if r.Ok? then MadeUpTo(x, i + 1, m, w, recs, after) else Handled(x, w, recs, r, after)
  }

  /** One more change taken. */
  lemma {:induction false} MadeNext(x: TxCase, i: nat, n: nat, w: World, recs: seq<RecordRef>, before: World,
                                    more: seq<RecordRef>, r: Result<(), ProcessError>, after: World)
    requires i < |x.tx.changes| && MadeUpTo(x, i, n, w, recs, before)
    requires ChangeHandled(x, x.tx.changes[i], n, before, more, r, after)
    ensures GoesOn(x, i, if Audited(x.tables, x.tx.changes[i]) then n + 1 else n, w, recs + more, r, after)
  {
    if more == [] {
      assert recs + more == recs;
      MadeNone(x, i, n, w, recs, before);
    } else {
      assert more == [more[0]];
      MadeOne(x, i, n, w, recs, before, more[0]);
    }
  }

  lemma {:induction false} MadeNothing(x: TxCase, w: World)
    ensures MadeUpTo(x, 0, 0, w, [], w)
  {
  }

  lemma {:induction false} MadeAll(x: TxCase, n: nat, w: World, recs: seq<RecordRef>, after: World)
    requires MadeUpTo(x, |x.tx.changes|, n, w, recs, after)
    ensures Handled(x, w, recs, Ok(()), after)
  {
    assert x.tx.changes[..|x.tx.changes|] == x.tx.changes;
  }

  // ---------------------------------------------------------------- whole runs

  /** The configuration after a list of transactions. */
  function TablesAfter(dec: ColumnDecoder, tables: map<string, TableConfig>, txs: seq<Transaction>)
    : map<string, TableConfig>
  {
    if txs == [] then tables
    else AppliedAll(dec, TablesAfter(dec, tables, txs[..|txs| - 1]), txs[|txs| - 1].changes)
  }

  /** Transactions and what they are run with; ids, draws and ios of each, and the configuration before the first. */
  datatype RunCase = RunCase(
    env: Env,
    maxEvents: nat,
    builder: Builder,
    dec: ColumnDecoder,
    tables: map<string, TableConfig>,
    txs: seq<Transaction>,
    ids: nat -> nat -> string,
    draws: nat -> nat -> nat,
    ios: nat -> nat -> CloseIo)

  /** Transaction i of a run, under the configuration it is processed with. */
  function CaseAt(y: RunCase, i: nat): TxCase
    requires i < |y.txs|
  {
    TxCase(y.env, y.maxEvents, y.builder, TablesAfter(y.dec, y.tables, y.txs[..i + 1]), y.txs[i],
           y.ids(i), y.draws(i), y.ios(i))
  }

  /** Of each transaction: the records handed over and the result; and the world before it, and after the last one. */
  datatype RunLog = RunLog(
    done: seq<seq<RecordRef>>,
    outcomes: seq<Result<(), ProcessError>>,
    worlds: seq<World>)

  ghost predicate HandledAt(y: RunCase, log: RunLog, i: nat)
    requires i < |y.txs| && i < |log.done| == |log.outcomes| && |log.worlds| == |log.done| + 1
  {
    Handled(CaseAt(y, i), log.worlds[i], log.done[i], log.outcomes[i], log.worlds[i + 1])
  }

  /** Each of the first n transactions is handled, whatever came of those before it. */
  ghost predicate RunHandled(y: RunCase, n: nat, w: World, log: RunLog) {
    && |log.done| == |log.outcomes| == n <= |y.txs| && |log.worlds| == n + 1 && log.worlds[0] == w
    && forall i :: 0 <= i < n ==> HandledAt(y, log, i)
  }

  lemma {:induction false} StaysHandled(y: RunCase, log: RunLog, more: RunLog, i: nat)
    requires i < |log.done| == |log.outcomes| < |y.txs| && |log.worlds| == |log.done| + 1
    requires log.done <= more.done && log.outcomes <= more.outcomes && log.worlds <= more.worlds
    requires |more.done| == |more.outcomes| && |more.worlds| == |more.done| + 1
    requires HandledAt(y, log, i)
    ensures HandledAt(y, more, i)
  {
  }

  lemma {:induction false} RunMore(y: RunCase, n: nat, w: World, log: RunLog, recs: seq<RecordRef>,
                                   outcome: Result<(), ProcessError>, after: World)
    requires n < |y.txs| && RunHandled(y, n, w, log)
    requires Handled(CaseAt(y, n), log.worlds[n], recs, outcome, after)
    ensures RunHandled(y, n + 1, w, RunLog(log.done + [recs], log.outcomes + [outcome], log.worlds + [after]))
  {
    var more := RunLog(log.done + [recs], log.outcomes + [outcome], log.worlds + [after]);
    forall i | 0 <= i < n + 1 ensures HandledAt(y, more, i) {
      if i < n {
        StaysHandled(y, log, more, i);
      }
    }
  }

  // ------------------------------------------------------------- the processor

  class Processor {
    const builder: Builder
    const config: Manager
    const batcher: Batcher

    constructor (builder: Builder, config: Manager, batcher: Batcher)
      ensures this.builder == builder && this.config == config && this.batcher == batcher
    {
      this.builder, this.config, this.batcher := builder, config, batcher;
    }

    /** tx as it is processed by this processor under the present configuration. */
    ghost function Case(tx: Transaction, ids: nat -> string, draws: nat -> nat, ios: nat -> CloseIo): TxCase
      reads config
    {
      TxCase(batcher.env, batcher.maxEvents, builder, config.tables, tx, ids, draws, ios)
    }

    /** The first loop: the transaction's own configuration rows. */
    method ApplyConfigRows(tx: Transaction)
      modifies config
      ensures config.tables == AppliedAll(config.dec, old(config.tables), tx.changes)
    {
      for i := 0 to |tx.changes|
        invariant config.tables == AppliedAll(config.dec, old(config.tables), tx.changes[..i])
      {
        assert tx.changes[..i + 1] == tx.changes[..i] + [tx.changes[i]];
        AppliedAllSnoc(config.dec, old(config.tables), tx.changes[..i], tx.changes[i]);
        if tx.changes[i].table == "_audit_config" {
          config.HandleBinlogEvent(tx.changes[i]);
        }
      }
      assert tx.changes[..|tx.changes|] == tx.changes;
    }

    /** Attribution and the record, for a change on a table of the configuration. */
    method BuildFor(tx: Transaction, change: RowChange, draw: nat) returns (body: Option<RecordBody>)
      requires change.table in config.tables
      ensures body == RecordFor(builder, config.tables, tx, change, draw)
    {
      var actor := CorrelateTransaction(config.tables, tx, change.table);
      body := BuildRecord(builder, change, config.tables[change.table], actor, tx.id, tx.committedAt, draw);
    }

    /**
     * The body of the second loop: nothing for a change that is not audited or
     * cannot be built, and else one record; an error of the batcher is returned.
     * n records have been made before.
     */
    method RecordChange(tx: Transaction, change: RowChange, n: nat, ids: nat -> string, draws: nat -> nat,
                        ios: nat -> CloseIo, ghost x: TxCase, ghost w: World)
      returns (r: Result<(), ProcessError>, ghost recs: seq<RecordRef>, ghost after: World)
      requires batcher.Valid() && w == batcher.Snapshot() && x == Case(tx, ids, draws, ios)
      modifies batcher, batcher.store, batcher.archive
      ensures batcher.Valid() && after == batcher.Snapshot() && batcher.added == old(batcher.added) + recs
      ensures batcher.lastPosition == if recs == [] then old(batcher.lastPosition) else tx.position
      ensures ChangeHandled(x, change, n, w, recs, r, after)
      ensures |recs| <= 1 && (recs != [] ==> IsRecordOf(builder, config.tables, tx, change, recs[0].body))
      ensures r == Ok(()) ==>
                (recs != [] <==>
                  && change.table != "_audit_config" && change.table != "_audit_context"
                  && change.table in config.tables && config.tables[change.table].enabled)
      ensures var body := RecordFor(builder, config.tables, tx, change, draws(n));
              (r.Err? && r.error.ErrAdd?) <==>
                && Audited(config.tables, change) && body.Some?
                && var filled := Appended(w, AddCall(ids(n), body.value, tx.position, ios(n)));
                   |filled.buffer.records| >= batcher.maxEvents && !Closes(batcher.env, filled, ios(n))
      ensures r.Err? && r.error.ErrAdd? ==>
                var body := RecordFor(builder, config.tables, tx, change, draws(n)).value;
                CloseOutcome(batcher.env, Appended(w, AddCall(ids(n), body, tx.position, ios(n))), ios(n)) ==
                Err(r.error.cause)
    {
      r, recs, after := AddRecordOf(tx, change, n, ids, draws, ios, x, w);
      HandledTells(x, change, n, w, recs, r, after);
      AddFailsOnce(x, change, n, w, recs, r, after);
    }

    method AddRecordOf(tx: Transaction, change: RowChange, n: nat, ids: nat -> string, draws: nat -> nat,
                       ios: nat -> CloseIo, ghost x: TxCase, ghost w: World)
      returns (r: Result<(), ProcessError>, ghost recs: seq<RecordRef>, ghost after: World)
      requires batcher.Valid() && w == batcher.Snapshot() && x == Case(tx, ids, draws, ios)
      modifies batcher, batcher.store, batcher.archive
      ensures batcher.Valid() && after == batcher.Snapshot() && batcher.added == old(batcher.added) + recs
      ensures batcher.lastPosition == if recs == [] then old(batcher.lastPosition) else tx.position
      ensures ChangeHandled(x, change, n, w, recs, r, after)
    {
      recs, after := [], w;
      if change.table == "_audit_config" || change.table == "_audit_context" {
        return Ok(()), recs, after;
      }
      if change.table !in config.tables || !config.tables[change.table].enabled {
        return Ok(()), recs, after;
      }
      var body := BuildFor(tx, change, draws(n));
      if body.None? {
        return Err(ErrBuild), recs, after;
      }
      var ref := new RecordRef(ids(n), body.value, |batcher.records|);
      var added := batcher.AddRecord(ref, tx.position, ios(n));
      recs, after := [ref], batcher.Snapshot();
      r := AsResult(added);
    }

    /** One turn of the second loop, with n records made so far. */
    method RecordNext(tx: Transaction, i: nat, n: nat, ids: nat -> string, draws: nat -> nat, ios: nat -> CloseIo,
                      ghost x: TxCase, ghost w: World, ghost recs: seq<RecordRef>, ghost before: World)
      returns (r: Result<(), ProcessError>, m: nat, ghost more: seq<RecordRef>, ghost after: World)
      requires batcher.Valid() && before == batcher.Snapshot() && x == Case(tx, ids, draws, ios)
      requires i < |tx.changes| && MadeUpTo(x, i, n, w, recs, before)
      modifies batcher, batcher.store, batcher.archive
      ensures batcher.Valid() && after == batcher.Snapshot() && batcher.added == old(batcher.added) + more
      ensures batcher.lastPosition == if more == [] then old(batcher.lastPosition) else tx.position
      ensures GoesOn(x, i, m, w, recs + more, r, after)
    {
      r, more, after := RecordChange(tx, tx.changes[i], n, ids, draws, ios, x, before);
      MadeNext(x, i, n, w, recs, before, more, r, after);
      m := if Audited(config.tables, tx.changes[i]) then n + 1 else n;
    }

    /** The second loop; n counts the records made. */
    method RecordChanges(tx: Transaction, ids: nat -> string, draws: nat -> nat, ios: nat -> CloseIo,
                         ghost x: TxCase, ghost w: World)
      returns (r: Result<(), ProcessError>, ghost recs: seq<RecordRef>, ghost after: World)
      requires batcher.Valid() && w == batcher.Snapshot() && x == Case(tx, ids, draws, ios)
      modifies batcher, batcher.store, batcher.archive
      ensures batcher.Valid() && after == batcher.Snapshot() && batcher.added == old(batcher.added) + recs
      ensures Handled(x, w, recs, r, after)
      ensures recs != [] ==> batcher.lastPosition == tx.position
    {
      recs, after, r := [], w, Ok(());
      var n := 0;
      MadeNothing(x, w);
      for i := 0 to |tx.changes|
        invariant batcher.Valid() && after == batcher.Snapshot() && batcher.added == old(batcher.added) + recs
        invariant MadeUpTo(x, i, n, w, recs, after)
        invariant recs != [] ==> batcher.lastPosition == tx.position
      {
        ghost var more;
        r, n, more, after := RecordNext(tx, i, n, ids, draws, ios, x, w, recs, after);
        Assoc(old(batcher.added), recs, more);
        recs := recs + more;
        if r.Err? {
          return;
        }
      }
      MadeAll(x, n, w, recs, after);
      r := Ok(());
    }

    /**
     * Applies the transaction's configuration rows and then adds one record per
     * audited change, in order, until one cannot be built or the batcher fails to
     * close a full batch.  After an error the rest of the transaction is left out.
     */
    method ProcessTransaction(tx: Transaction, ids: nat -> string, draws: nat -> nat, ios: nat -> CloseIo,
                              ghost w: World)
      returns (r: Result<(), ProcessError>, ghost recs: seq<RecordRef>, ghost after: World)
      requires batcher.Valid() && w == batcher.Snapshot()
      modifies config, batcher, batcher.store, batcher.archive
      ensures batcher.Valid() && after == batcher.Snapshot() && batcher.added == old(batcher.added) + recs
      ensures config.tables == AppliedAll(config.dec, old(config.tables), tx.changes)
      ensures Handled(Case(tx, ids, draws, ios), w, recs, r, after)
      ensures exists idx :: HandedOver(builder, config.tables, tx, recs, r, idx)
      ensures recs != [] ==> batcher.lastPosition == tx.position
    {
      ApplyConfigRows(tx);
      ghost var x := Case(tx, ids, draws, ios);
      r, recs, after := RecordChanges(tx, ids, draws, ios, x, w);
      ghost var idx := HandledHandsOver(x, w, recs, r, after);
    }

    /** These transactions as they are run by this processor, starting from the present configuration. */
    ghost function Runs(txs: seq<Transaction>, ids: nat -> nat -> string, draws: nat -> nat -> nat,
                        ios: nat -> nat -> CloseIo): RunCase
      reads config
    {
      RunCase(batcher.env, batcher.maxEvents, builder, config.dec, config.tables, txs, ids, draws, ios)
    }

    /**
     * The event loop over the transactions delivered before it is stopped; an
     * error in one transaction is logged and the next one is processed all the
     * same.  At the end the open batch is closed.
     */
    method Run(txs: seq<Transaction>, ids: nat -> nat -> string, draws: nat -> nat -> nat,
               ios: nat -> nat -> CloseIo, last: CloseIo)
      returns (r: Result<(), CloseError>, ghost log: RunLog)
      requires batcher.Valid()
      modifies config, batcher, batcher.store, batcher.archive
      ensures batcher.Valid() && batcher.added == old(batcher.added) + Flatten(log.done)
      ensures config.tables == TablesAfter(config.dec, old(config.tables), txs)
      ensures RunHandled(old(Runs(txs, ids, draws, ios)), |txs|, old(batcher.Snapshot()), log)
      ensures var w := log.worlds[|txs|];
              batcher.Snapshot() == CloseOnce(batcher.env, w, last) && r == CloseOutcome(batcher.env, w, last)
      ensures r.Ok? ==> batcher.records == []
    {
      ghost var y, start, w := Runs(txs, ids, draws, ios), batcher.added, batcher.Snapshot();
      log := RunLog([], [], [w]);
      for i := 0 to |txs|
        invariant batcher.Valid() && batcher.added == start + Flatten(log.done)
        invariant config.tables == TablesAfter(y.dec, y.tables, txs[..i])
        invariant RunHandled(y, i, w, log)
        invariant log.worlds[i] == batcher.Snapshot()
      {
        var outcome; ghost var recs, after;
        assert txs[..i + 1][..i] == txs[..i];
        outcome, recs, after := ProcessTransaction(txs[i], ids(i), draws(i), ios(i), log.worlds[i]);
        RunMore(y, i, w, log, recs, outcome, after);
        FlattenSnoc(log.done, recs);
        Assoc(start, Flatten(log.done), recs);
        log := RunLog(log.done + [recs], log.outcomes + [outcome], log.worlds + [after]);
      }
      assert txs[..|txs|] == txs;
      r := batcher.CloseCurrentBatch(last);
    }
  }

  lemma {:induction false} FixedConfig(dec: ColumnDecoder, tables: map<string, TableConfig>, changes: seq<RowChange>)
    requires forall i :: 0 <= i < |changes| ==> changes[i].table != "_audit_config"
    ensures AppliedAll(dec, tables, changes) == tables
    decreases |changes|
  {
    if changes != [] {
      FixedConfig(dec, tables, changes[1..]);
    }
  }

  /**
   * Whatever is drawn for it, a record of a transaction carries the transaction's
   * id and commit time and the one actor the transaction names, if it names one.
   */
  lemma {:induction false} OneTransactionOneActor(builder: Builder, tables: map<string, TableConfig>, tx: Transaction,
                                                  change: RowChange, draw: nat, body: RecordBody)
    requires RecordFor(builder, tables, tx, change, draw) == Some(body)
    ensures body.transactionID == tx.id && body.committedAt == tx.committedAt
    ensures FirstActor(tx.changes).Some? ==>
              var actor := FirstActor(tx.changes).value;
              body.actorUserID == actor.userID && body.actorType == actor.actorType
    ensures (exists i :: 0 <= i < |tx.changes| && NamedActor(tx.changes[i]).Some?) ==>
              body.actorUserID.Some? && body.actorUserID.value != ""
  {
    if i :| 0 <= i < |tx.changes| && NamedActor(tx.changes[i]).Some? {
      OneActorForAll(tx.changes, i);
      FirstActorIsNamed(tx.changes);
    }
  }
}
