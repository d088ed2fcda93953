/** The rate limiter of internal/alerting/alerting.go. */
module Alerting {
  import opened Common

  /** One call of Trigger: what it is about, and the clock as it reads it when checking and when recording. */
  datatype Call = Call(trigger: string, tableName: string, checkedAt: nat, recordedAt: nat)

  datatype Alert = Alert(trigger: string, severity: string, tableName: string, message: string, timestamp: nat)

  function RateKey(trigger: string, tableName: string): string {
    trigger + ":" + tableName
  }

  function KeyOf(c: Call): string {
    RateKey(c.trigger, c.tableName)
  }

  predicate Suppressed(limiter: map<string, nat>, cooldown: nat, c: Call) {
    KeyOf(c) in limiter && c.checkedAt - limiter[KeyOf(c)] < cooldown
  }

  function Limited(limiter: map<string, nat>, cooldown: nat, c: Call): map<string, nat> {
    if Suppressed(limiter, cooldown, c) then limiter else limiter[KeyOf(c) := c.recordedAt]
  }

  class Dispatcher {
    const cooldown: nat
    var rateLimiter: map<string, nat>
    var alerts: seq<Alert>

    constructor (cooldown: nat)
      ensures this.cooldown == cooldown && rateLimiter == map[] && alerts == []
    {
      this.cooldown, rateLimiter, alerts := cooldown, map[], [];
    }

    /** A suppressed call changes nothing; any other is recorded under its key and reaches the memory sink. */
    method Trigger(trigger: string, severity: string, tableName: string, message: string,
                   checkedAt: nat, recordedAt: nat, sentAt: nat) returns (alert: Option<Alert>)
      modifies this
      ensures var c := Call(trigger, tableName, checkedAt, recordedAt);
              && rateLimiter == Limited(old(rateLimiter), cooldown, c)
              && alert == (if Suppressed(old(rateLimiter), cooldown, c) then None
                           else Some(Alert(trigger, severity, tableName, message, sentAt)))
              && alerts == old(alerts) + if alert.Some? then [alert.value] else []
      ensures alert == None <==>
                trigger + ":" + tableName in old(rateLimiter) &&
                checkedAt < old(rateLimiter)[trigger + ":" + tableName] + cooldown
      ensures alert != None ==> rateLimiter == old(rateLimiter)[trigger + ":" + tableName := recordedAt]
    {
      var rateKey := trigger + ":" + tableName;
      if rateKey in rateLimiter && checkedAt - rateLimiter[rateKey] < cooldown {
        return None;
      }
      rateLimiter := rateLimiter[rateKey := recordedAt];
      var a := Alert(trigger, severity, tableName, message, sentAt);
      alerts := alerts + [a];
      return Some(a);
    }
  }

  // --------------------------------------------------------------- whole runs

  /** The limiter after the first n calls. */
  function LimiterAfter(cooldown: nat, calls: seq<Call>, n: nat): map<string, nat>
    requires n <= |calls|
  {
    if n == 0 then map[] else Limited(LimiterAfter(cooldown, calls, n - 1), cooldown, calls[n - 1])
  }

  /** Call i is let through. */
  predicate Sent(cooldown: nat, calls: seq<Call>, i: nat)
    requires i < |calls|
  {
    !Suppressed(LimiterAfter(cooldown, calls, i), cooldown, calls[i])
  }

  /** The clock does not go back, within a call or between calls. */
  predicate ClockRuns(calls: seq<Call>) {
    && (forall i :: 0 <= i < |calls| ==> calls[i].checkedAt <= calls[i].recordedAt)
    && (forall i, j :: 0 <= i < j < |calls| ==> calls[i].recordedAt <= calls[j].checkedAt)
  }

  /** What the limiter holds for a key is the time of the last call let through for it. */
  lemma {:induction false} LimiterHolds(cooldown: nat, calls: seq<Call>, n: nat, key: string)
    requires n <= |calls| && key in LimiterAfter(cooldown, calls, n)
    ensures exists i: nat :: i < n && KeyOf(calls[i]) == key && Sent(cooldown, calls, i) &&
              LimiterAfter(cooldown, calls, n)[key] == calls[i].recordedAt
  {
    if KeyOf(calls[n - 1]) == key && Sent(cooldown, calls, n - 1) {
      assert LimiterAfter(cooldown, calls, n)[key] == calls[n - 1].recordedAt;
    } else {
      LimiterHolds(cooldown, calls, n - 1, key);
    }
  }

  /** Once a call of a key is let through, the limiter holds a time no earlier than that call's. */
  lemma {:induction false} LimiterRemembers(cooldown: nat, calls: seq<Call>, i: nat, n: nat)
    requires ClockRuns(calls) && i < n <= |calls| && Sent(cooldown, calls, i)
    ensures KeyOf(calls[i]) in LimiterAfter(cooldown, calls, n)
    ensures LimiterAfter(cooldown, calls, n)[KeyOf(calls[i])] >= calls[i].recordedAt
    decreases n
  {
    if i < n - 1 {
      LimiterRemembers(cooldown, calls, i, n - 1);
    }
  }

  /** Two calls are rated together if their trigger and table, written with a colon between them, are the same text. */
  ghost predicate SameKey(c: Call, d: Call) {
    c.trigger + ":" + c.tableName == d.trigger + ":" + d.tableName
  }

  /** The colon behind a trigger without one is the first of the key. */
  lemma {:induction false} FirstColon(key: string, trigger: string, tableName: string)
    requires ':' !in trigger && key == trigger + ":" + tableName
    ensures |trigger| < |key| && key[|trigger|] == ':' && forall i :: 0 <= i < |trigger| ==> key[i] != ':'
    ensures key[..|trigger|] == trigger && key[|trigger| + 1..] == tableName
  {
    forall i | 0 <= i < |trigger| ensures key[i] != ':' {
      assert key[i] == trigger[i];
    }
  }

  /** With no colon in the triggers, those are calls of one trigger about one table. */
  lemma {:induction false} SameKeyIff(c: Call, d: Call)
    requires ':' !in c.trigger && ':' !in d.trigger
    ensures SameKey(c, d) <==> c.trigger == d.trigger && c.tableName == d.tableName
  {
    FirstColon(c.trigger + ":" + c.tableName, c.trigger, c.tableName);
    FirstColon(d.trigger + ":" + d.tableName, d.trigger, d.tableName);
  }

  /** A colon in a trigger can make two different calls share a key. */
  lemma {:induction false} ColonSharesKey(checkedAt: nat, recordedAt: nat)
    ensures var c, d := Call("a:b", "c", checkedAt, recordedAt), Call("a", "b:c", checkedAt, recordedAt);
            SameKey(c, d) && c.tableName != d.tableName
  {
    assert "a:b" + ":" + "c" == "a" + ":" + "b:c";
  }

  /** Two calls let through under one key are at least the cooldown apart. */
  lemma {:induction false} SendsApart(cooldown: nat, calls: seq<Call>, i: nat, j: nat)
    requires ClockRuns(calls) && i < j < |calls| && SameKey(calls[i], calls[j])
    requires Sent(cooldown, calls, i) && Sent(cooldown, calls, j)
    ensures calls[j].recordedAt >= calls[i].recordedAt + cooldown
  {
    LimiterRemembers(cooldown, calls, i, j);
  }

  /** A call is suppressed exactly if some earlier call of its key was let through less than the cooldown before. */
  lemma {:induction false} SuppressedIff(cooldown: nat, calls: seq<Call>, j: nat)
    requires ClockRuns(calls) && j < |calls|
    ensures !Sent(cooldown, calls, j) <==>
              exists i: nat :: i < j && SameKey(calls[i], calls[j]) && Sent(cooldown, calls, i) &&
                calls[j].checkedAt < calls[i].recordedAt + cooldown
  {
    if !Sent(cooldown, calls, j) {
      LimiterHolds(cooldown, calls, j, KeyOf(calls[j]));
    }
    if i: nat :| i < j && SameKey(calls[i], calls[j]) && Sent(cooldown, calls, i) &&
                 calls[j].checkedAt < calls[i].recordedAt + cooldown {
      LimiterRemembers(cooldown, calls, i, j);
    }
  }

  /** With no colon in the triggers, only calls of the same trigger about the same table suppress each other. */
  lemma {:induction false} SuppressedByItsOwn(cooldown: nat, calls: seq<Call>, j: nat)
    requires ClockRuns(calls) && j < |calls| && forall i :: 0 <= i < |calls| ==> ':' !in calls[i].trigger
    ensures !Sent(cooldown, calls, j) <==>
              exists i: nat :: i < j && calls[i].trigger == calls[j].trigger &&
                calls[i].tableName == calls[j].tableName && Sent(cooldown, calls, i) &&
                calls[j].checkedAt < calls[i].recordedAt + cooldown
  {
    SuppressedIff(cooldown, calls, j);
    forall i | 0 <= i < |calls|
      ensures SameKey(calls[i], calls[j]) <==>
              calls[i].trigger == calls[j].trigger && calls[i].tableName == calls[j].tableName
    {
      SameKeyIff(calls[i], calls[j]);
    }
  }
}
