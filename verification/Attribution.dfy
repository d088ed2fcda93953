/** Who made a change: internal/attribution/attribution.go. */
module Attribution {
  import opened Common
  import opened Source
  import opened Config

  datatype Actor = Actor(
    userID: Option<string>,
    actorType: string,
    requestID: string,
    triggerAlert: bool,
    severity: string,
    reason: string)

  /** The actor named by an inserted _audit_context row with a non-empty user. */
  function NamedActor(change: RowChange): Option<Actor> {
    if change.table == "_audit_context" && change.action == Insert && change.after.Some? &&
       TextOr(change.after.value, "user_id", "") != ""
    then
      var row := change.after.value;
      var kind := TextOr(row, "actor_type", "");
      Some(Actor(Some(TextOr(row, "user_id", "")), if kind == "" then "USER" else kind,
                 TextOr(row, "request_id", ""), false, "", ""))
    else None
  }

  /** The first actor named anywhere in the changes. */
  function FirstActor(changes: seq<RowChange>): Option<Actor> {
    if changes == [] then None
    else if NamedActor(changes[0]).Some? then NamedActor(changes[0])
    else FirstActor(changes[1..])
  }

  /** The actor of a change on `table` when the transaction names none. */
  function DefaultActor(tables: map<string, TableConfig>, table: string): Actor {
    if table !in tables || tables[table].unattributedPolicy == "tolerate" then
      Actor(None, "SYSTEM", "", false, "", "unattributed change tolerated by policy")
    else
      var severity := if tables[table].severityTier == "" then "normal" else tables[table].severityTier;
      Actor(None, "UNATTRIBUTED", "", true, severity,
            "unattributed change on strict table " + table + " (severity: " + severity + ")")
  }

  function ActorFor(tables: map<string, TableConfig>, changes: seq<RowChange>, table: string): Actor {
    match FirstActor(changes)
    case Some(actor) => actor
    case None => DefaultActor(tables, table)
  }

  /** The change is an inserted context row that names a user. */
  ghost predicate Names(change: RowChange, user: string) {
    && change.table == "_audit_context" && change.action == Insert && change.after.Some?
    && "user_id" in change.after.value && change.after.value["user_id"] == Str(user) && user != ""
  }

  /** The text in a column, and nothing if there is none. */
  ghost predicate TextIn(row: Image, column: string, text: string) {
    if column in row && row[column].Str? then text == row[column].text else text == ""
  }

  /** The actor is the one named by change i, the first that names one; it raises no alert. */
  ghost predicate IsNamedBy(changes: seq<RowChange>, i: nat, actor: Actor) {
    && i < |changes| && actor.userID.Some? && Names(changes[i], actor.userID.value)
    && (forall j, user :: 0 <= j < i ==> !Names(changes[j], user))
    && TextIn(changes[i].after.value, "request_id", actor.requestID)
    && (|| (TextIn(changes[i].after.value, "actor_type", actor.actorType) && actor.actorType != "")
        || (TextIn(changes[i].after.value, "actor_type", "") && actor.actorType == "USER"))
    && !actor.triggerAlert && actor.severity == "" && actor.reason == ""
  }

  /**
   * Nobody is named, and the table's policy decides: an alert is raised exactly
   * if the table is configured not to tolerate this.
   */
  ghost predicate IsByPolicy(tables: map<string, TableConfig>, changes: seq<RowChange>, table: string, actor: Actor) {
    && (forall j, user :: 0 <= j < |changes| ==> !Names(changes[j], user))
    && actor.userID == None && actor.requestID == ""
    && (actor.triggerAlert <==> table in tables && tables[table].unattributedPolicy != "tolerate")
    && actor.actorType == (if actor.triggerAlert then "UNATTRIBUTED" else "SYSTEM")
    && (actor.triggerAlert ==>
          actor.severity == if tables[table].severityTier == "" then "normal" else tables[table].severityTier)
    && (!actor.triggerAlert ==> actor.severity == "")
    && actor.reason == if actor.triggerAlert
                       then "unattributed change on strict table " + table + " (severity: " + actor.severity + ")"
                       else "unattributed change tolerated by policy"
  }

  /** The actor a change on the table is attributed to. */
  ghost predicate AttributedTo(tables: map<string, TableConfig>, changes: seq<RowChange>, table: string, actor: Actor) {
    (exists i: nat :: IsNamedBy(changes, i, actor)) || IsByPolicy(tables, changes, table, actor)
  }

  lemma {:induction false} NamedIff(change: RowChange)
    ensures NamedActor(change).Some? <==> exists user :: Names(change, user)
    ensures NamedActor(change).Some? ==> NamedActor(change).value.userID.Some? &&
                                         Names(change, NamedActor(change).value.userID.value)
  {
    if NamedActor(change).Some? {
      assert Names(change, change.after.value["user_id"].text);
    }
  }

  lemma {:induction false} FirstIsNamed(changes: seq<RowChange>)
    ensures FirstActor(changes).Some? ==> exists i: nat :: IsNamedBy(changes, i, FirstActor(changes).value)
    ensures FirstActor(changes).None? ==> forall j, user :: 0 <= j < |changes| ==> !Names(changes[j], user)
  {
    if changes != [] {
      var rest := changes[1..];
      NamedIff(changes[0]);
      FirstIsNamed(rest);
      if NamedActor(changes[0]).Some? {
        assert IsNamedBy(changes, 0, FirstActor(changes).value);
      } else if FirstActor(changes).Some? {
        var i: nat :| IsNamedBy(rest, i, FirstActor(rest).value);
        forall j, user | 0 <= j < i + 1 ensures !Names(changes[j], user) {
          assert j > 0 ==> changes[j] == rest[j - 1];
        }
        assert IsNamedBy(changes, i + 1, FirstActor(changes).value);
      } else {
        forall j, user | 0 <= j < |changes| ensures !Names(changes[j], user) {
          assert j > 0 ==> changes[j] == rest[j - 1];
        }
      }
    }
  }

  lemma {:induction false} ActorIsAttributed(tables: map<string, TableConfig>, changes: seq<RowChange>, table: string)
    ensures AttributedTo(tables, changes, table, ActorFor(tables, changes, table))
  {
    FirstIsNamed(changes);
  }

  /** The first named actor of the transaction, or what the table's policy says. */
  method CorrelateTransaction(tables: map<string, TableConfig>, tx: Transaction, table: string) returns (actor: Actor)
    ensures actor == ActorFor(tables, tx.changes, table)
    ensures (exists j, user :: 0 <= j < |tx.changes| && Names(tx.changes[j], user)) ==>
              exists i: nat :: IsNamedBy(tx.changes, i, actor)
    ensures (forall j, user :: 0 <= j < |tx.changes| ==> !Names(tx.changes[j], user)) ==>
              IsByPolicy(tables, tx.changes, table, actor)
  {
    FirstIsNamed(tx.changes);
    actor := Correlated(tables, tx, table);
  }

  method Correlated(tables: map<string, TableConfig>, tx: Transaction, table: string) returns (actor: Actor)
    ensures actor == ActorFor(tables, tx.changes, table)
  {
    for i := 0 to |tx.changes|
      invariant FirstActor(tx.changes) == FirstActor(tx.changes[i..])
    {
      var change := tx.changes[i];
      assert tx.changes[i..][1..] == tx.changes[i + 1..];
      if change.table == "_audit_context" && change.action == Insert {
        if change.after.Some? {
          var row := change.after.value;
          var userID := TextOr(row, "user_id", "");
          var actorType := TextOr(row, "actor_type", "");
          if actorType == "" {
            actorType := "USER";
          }
          if userID != "" {
            return Actor(Some(userID), actorType, TextOr(row, "request_id", ""), false, "", "");
          }
        }
      }
    }
    if table !in tables || tables[table].unattributedPolicy == "tolerate" {
      return Actor(None, "SYSTEM", "", false, "", "unattributed change tolerated by policy");
    }
    var severity := tables[table].severityTier;
    if severity == "" {
      severity := "normal";
    }
    actor := Actor(None, "UNATTRIBUTED", "", true, severity,
                   "unattributed change on strict table " + table + " (severity: " + severity + ")");
  }

  /** A context insert with a non-empty user, anywhere in the transaction, decides the actor for every table. */
  lemma {:induction false} OneActorForAll(changes: seq<RowChange>, i: nat)
    requires i < |changes| && NamedActor(changes[i]).Some?
    ensures FirstActor(changes).Some?
    ensures forall tables, t :: ActorFor(tables, changes, t) == FirstActor(changes).value
  {
    if NamedActor(changes[0]).None? {
      OneActorForAll(changes[1..], i - 1);
    }
  }

  lemma {:induction false} FirstActorIsNamed(changes: seq<RowChange>)
    ensures FirstActor(changes).Some? ==>
              var id := FirstActor(changes).value.userID; id.Some? && id.value != ""
  {
    if changes != [] {
      FirstActorIsNamed(changes[1..]);
    }
  }
}
