/**
 * The server's log as files, the stream a reader gets from a position, and
 * resumption at the position of a reported transaction.
 */
module LogFiles {
  import opened Common
  import opened Source
  import opened Binlog

  /** One log file, and the header position of the rotation event that ends it. */
  datatype LogFile = LogFile(name: string, events: seq<Event>, rotatePos: nat)

  type Log = seq<LogFile>

  /** The event a server sends first when it starts reading a file. */
  function SeekTo(name: string, start: nat): Event {
    Event(0, 0, Rotate(name, start))
  }

  /** From one file to the next: the rotation event of the old file, then the seek into the new one. */
  function Crossing(log: Log, f: nat): seq<Event>
    requires f + 1 < |log|
  {
    [Event(log[f].rotatePos, 0, Rotate(log[f + 1].name, 4)), SeekTo(log[f + 1].name, 4)]
  }

  /** The events from index i of file f to the end of the log. */
  function Tail(log: Log, f: nat, i: nat): seq<Event>
    requires f < |log| && i <= |log[f].events|
    decreases |log| - f, |log[f].events| - i
  {
    if i < |log[f].events| then [log[f].events[i]] + Tail(log, f, i + 1)
    else if f + 1 < |log| then Crossing(log, f) + Tail(log, f + 1, 0)
    else []
  }

  /** What the server sends for (file f, offset p): everything in f after p, and the later files. */
  function StreamAt(log: Log, f: nat, p: nat): seq<Event>
    requires f < |log|
  {
    [SeekTo(log[f].name, p)] + Tail(log, f, FirstAfter(log[f].events, p))
  }

  function FirstAfter(events: seq<Event>, p: nat): (i: nat)
    ensures i <= |events|
  {
    if events == [] || events[0].logPos > p then 0 else 1 + FirstAfter(events[1..], p)
  }

  predicate HasFile(log: Log, name: string) {
    exists f :: 0 <= f < |log| && log[f].name == name
  }

  /** The stream for a position, which names its file. */
  ghost function Stream(log: Log, pos: Position): seq<Event> {
    if HasFile(log, pos.file) then
      var f :| 0 <= f < |log| && log[f].name == pos.file;
      StreamAt(log, f, pos.position)
    else []
  }

  /** Whether a transaction is open after an event. */
  predicate OpenAfter(open: bool, ev: Event) {
    match ev.payload
    case Query(q, _) => KindOf(q) == Begin || (open && KindOf(q) != Commit && KindOf(q) != Rollback)
    case Xid(_) => false
    case _ => open
  }

  predicate OpenAt(events: seq<Event>, i: nat)
    requires i <= |events|
  {
    i > 0 && OpenAfter(OpenAt(events, i - 1), events[i - 1])
  }

  predicate IsDdl(ev: Event) {
    ev.payload.Query? && KindOf(ev.payload.query) == Ddl
  }

  /**
   * How a server writes a file: positions strictly increase, rotations are not
   * inside, and a DDL statement does not stand in an open transaction.
   */
  ghost predicate FileOk(file: LogFile) {
    && file.name != ""
    && (forall i :: 0 <= i < |file.events| ==> 0 < file.events[i].logPos < 0x1_0000_0000)
    && (forall i, j :: 0 <= i < j < |file.events| ==> file.events[i].logPos < file.events[j].logPos)
    && (forall i :: 0 <= i < |file.events| ==> !file.events[i].payload.Rotate?)
    && (forall i :: 0 <= i < |file.events| && IsDdl(file.events[i]) ==> !OpenAt(file.events, i))
  }

  /** The files are distinct, and a transaction may be open at the end of the last one only. */
  ghost predicate LogOk(log: Log) {
    && (forall f :: 0 <= f < |log| ==> FileOk(log[f]))
    && (forall f :: 0 <= f < |log| - 1 ==> !OpenAt(log[f].events, |log[f].events|))
    && (forall f, g :: 0 <= f < g < |log| ==> log[f].name != log[g].name)
  }

  /** The reader, at index i of file f, is in step with the file. */
  ghost predicate InStep(log: Log, f: nat, i: nat, s: ReadState)
    requires f < |log| && i <= |log[f].events|
  {
    s.pos.file == log[f].name && SameFile(s) && s.inTx == OpenAt(log[f].events, i)
  }

  lemma {:induction false} FirstAfterIs(events: seq<Event>, p: nat, i: nat)
    requires i <= |events|
    requires forall k :: 0 <= k < i ==> events[k].logPos <= p
    requires i < |events| ==> events[i].logPos > p
    ensures FirstAfter(events, p) == i
  {
    if i > 0 {
      FirstAfterIs(events[1..], p, i - 1);
    }
  }

  lemma {:induction false} StreamIs(log: Log, f: nat, pos: Position)
    requires LogOk(log) && f < |log| && pos.file == log[f].name
    ensures Stream(log, pos) == StreamAt(log, f, pos.position)
  {
    assert HasFile(log, pos.file);
  }

  /** The reader stays in step through a file. */
  lemma {:induction false} StepInFile(log: Log, f: nat, i: nat, s: ReadState)
    requires LogOk(log) && f < |log| && i < |log[f].events| && InStep(log, f, i, s)
    ensures InStep(log, f, i + 1, Step(s, log[f].events[i]))
    ensures Emitted(s, log[f].events[i]) != [] ==> Settles(s, log[f].events[i])
    ensures |Emitted(s, log[f].events[i])| <= 1
  {
    assert FileOk(log[f]);
  }

  /** At the end of a file nothing is reported and the reader is in step with the next file. */
  lemma {:induction false} CrossFile(log: Log, f: nat, s: ReadState)
    requires LogOk(log) && f + 1 < |log| && InStep(log, f, |log[f].events|, s)
    ensures Output(s, Crossing(log, f)) == [] && InStep(log, f + 1, 0, Run(s, Crossing(log, f)))
  {
    assert FileOk(log[f]);
    var a, b := Crossing(log, f)[0], Crossing(log, f)[1];
    assert Crossing(log, f) == [a] + [b];
    RunAppend(s, [a], [b]);
    OneEvent(s, a);
    OneEvent(Step(s, a), b);
  }

  /** Seeking to the position the reader already has changes nothing. */
  lemma {:induction false} SeekIsNeutral(log: Log, f: nat, p: nat)
    requires f < |log| && p < 0x1_0000_0000
    ensures var pos := Position(log[f].name, p);
            Output(Start(pos), StreamAt(log, f, p)) ==
            Output(Start(pos), Tail(log, f, FirstAfter(log[f].events, p)))
  {
    var pos := Position(log[f].name, p);
    var seek, rest := SeekTo(log[f].name, p), Tail(log, f, FirstAfter(log[f].events, p));
    assert ([seek] + rest)[1..] == rest;
    assert Step(Start(pos), seek) == Start(pos) && Emitted(Start(pos), seek) == [];
  }

  /** Resuming where event i of file f was reported. */
  lemma {:induction false} ResumeAt(log: Log, f: nat, i: nat)
    requires LogOk(log) && f < |log| && i < |log[f].events|
    ensures var pos := Position(log[f].name, log[f].events[i].logPos);
            && Output(Start(pos), Stream(log, pos)) == Output(Start(pos), Tail(log, f, i + 1))
            && FirstAfter(log[f].events, pos.position) == i + 1 && pos.position < 0x1_0000_0000
  {
    assert FileOk(log[f]);
    var p := log[f].events[i].logPos;
    FirstAfterIs(log[f].events, p, i + 1);
    StreamIs(log, f, Position(log[f].name, p));
    SeekIsNeutral(log, f, p);
  }

  /** Reading on from (f, i): what its event reports, then the rest. */
  lemma {:induction false} OutputInFile(log: Log, f: nat, i: nat, s: ReadState, out: seq<Transaction>,
                                        here: seq<Transaction>, later: seq<Transaction>)
    requires f < |log| && i < |log[f].events| && out == Output(s, Tail(log, f, i))
    requires here == Emitted(s, log[f].events[i])
    requires later == Output(Step(s, log[f].events[i]), Tail(log, f, i + 1))
    ensures out == here + later
  {
    var rest := Tail(log, f, i + 1);
    assert Tail(log, f, i) == [log[f].events[i]] + rest;
    assert Tail(log, f, i)[1..] == rest;
  }

  /** pos stands between two transactions of a file of the log. */
  ghost predicate StartsAt(log: Log, pos: Position, f: nat) {
    && f < |log| && log[f].name == pos.file && pos.position < 0x1_0000_0000
    && !OpenAt(log[f].events, FirstAfter(log[f].events, pos.position))
  }

  ghost predicate CanStart(log: Log, pos: Position) {
    exists f: nat :: StartsAt(log, pos, f)
  }

  /** The transaction reported by event i of file f is followed, after a restart, by the rest. */
  lemma {:induction false} ResumeHere(log: Log, f: nat, i: nat, s: ReadState)
    requires LogOk(log) && f < |log| && i < |log[f].events| && InStep(log, f, i, s)
    requires Emitted(s, log[f].events[i]) != []
    ensures var pos := Emitted(s, log[f].events[i])[0].position;
            && Output(Start(pos), Stream(log, pos)) == Output(Step(s, log[f].events[i]), Tail(log, f, i + 1))
            && CanStart(log, pos)
  {
    StepInFile(log, f, i, s);
    SettledIsRestart(s, log[f].events[i]);
    ResumeAt(log, f, i);
    assert StartsAt(log, Emitted(s, log[f].events[i])[0].position, f);
  }

  /** A restart at pos reports `rest`, and may itself be restarted from. */
  ghost predicate RestartGives(log: Log, pos: Position, rest: seq<Transaction>) {
    CanStart(log, pos) && Output(Start(pos), Stream(log, pos)) == rest
  }

  lemma {:induction false} DropThrough(here: seq<Transaction>, later: seq<Transaction>, out: seq<Transaction>,
                                       j: nat, k: nat)
    requires out == here + later && |here| + k == j < |out|
    ensures k < |later| && out[j] == later[k] && out[j + 1..] == later[k + 1..]
  {
  }

  lemma {:induction false} ResumeNow(log: Log, f: nat, i: nat, s: ReadState, out: seq<Transaction>)
    requires LogOk(log) && f < |log| && i < |log[f].events| && InStep(log, f, i, s)
    requires Emitted(s, log[f].events[i]) != [] && out == Output(s, Tail(log, f, i))
    ensures |out| >= 1 && RestartGives(log, out[0].position, out[1..])
    ensures |Emitted(s, log[f].events[i])| == 1
  {
    var here, later := Emitted(s, log[f].events[i]), Output(Step(s, log[f].events[i]), Tail(log, f, i + 1));
    OutputInFile(log, f, i, s, out, here, later);
    StepInFile(log, f, i, s);
    ResumeHere(log, f, i, s);
    Cut(here, later);
  }

  /** The j-th transaction reported from (f, i) on is followed, after a restart at its position, by the later ones. */
  lemma {:induction false} ResumeFromTail(log: Log, f: nat, i: nat, s: ReadState, out: seq<Transaction>, j: nat)
    requires LogOk(log) && f < |log| && i <= |log[f].events| && InStep(log, f, i, s)
    requires out == Output(s, Tail(log, f, i)) && j < |out|
    ensures RestartGives(log, out[j].position, out[j + 1..])
    decreases |log| - f, |log[f].events| - i
  {
    if i == |log[f].events| {
      if f + 1 < |log| {
        ResumeAcross(log, f, s, out);
        ResumeFromTail(log, f + 1, 0, Run(s, Crossing(log, f)), out, j);
      }
    } else if j == 0 && Emitted(s, log[f].events[i]) != [] {
      ResumeNow(log, f, i, s, out);
    } else {
      ResumeLater(log, f, i, s, out, j);
    }
  }

  lemma {:induction false} ResumeLater(log: Log, f: nat, i: nat, s: ReadState, out: seq<Transaction>, j: nat)
    requires LogOk(log) && f < |log| && i < |log[f].events| && InStep(log, f, i, s)
    requires out == Output(s, Tail(log, f, i)) && j < |out|
    requires j > 0 || Emitted(s, log[f].events[i]) == []
    ensures RestartGives(log, out[j].position, out[j + 1..])
    decreases |log| - f, |log[f].events| - i, 0
  {
    var next := Step(s, log[f].events[i]);
    var here, later := Emitted(s, log[f].events[i]), Output(next, Tail(log, f, i + 1));
    OutputInFile(log, f, i, s, out, here, later);
    StepInFile(log, f, i, s);
    var k := j - |here|;
    DropThrough(here, later, out, j, k);
    ResumeFromTail(log, f, i + 1, next, later, k);
    assert RestartGives(log, later[k].position, later[k + 1..]);
  }

  lemma {:induction false} ResumeAcross(log: Log, f: nat, s: ReadState, out: seq<Transaction>)
    requires LogOk(log) && f + 1 < |log| && InStep(log, f, |log[f].events|, s)
    requires out == Output(s, Tail(log, f, |log[f].events|))
    ensures InStep(log, f + 1, 0, Run(s, Crossing(log, f)))
    ensures out == Output(Run(s, Crossing(log, f)), Tail(log, f + 1, 0))
  {
    CrossFile(log, f, s);
    RunAppend(s, Crossing(log, f), Tail(log, f + 1, 0));
  }

  /** The transactions reported by a reader started at pos. */
  ghost function Reports(log: Log, pos: Position): seq<Transaction> {
    Output(Start(pos), Stream(log, pos))
  }

  /**
   * A restart at the position of any reported transaction reports exactly the
   * transactions after it, across file rotations.
   */
  lemma {:induction false} RestartReportsTheRest(log: Log, pos: Position, j: nat)
    requires LogOk(log) && CanStart(log, pos) && j < |Reports(log, pos)|
    ensures Reports(log, Reports(log, pos)[j].position) == Reports(log, pos)[j + 1..]
    ensures CanStart(log, Reports(log, pos)[j].position)
  {
    var f: nat :| StartsAt(log, pos, f);
    StreamIs(log, f, pos);
    SeekIsNeutral(log, f, pos.position);
    ResumeFromTail(log, f, FirstAfter(log[f].events, pos.position), Start(pos), Reports(log, pos), j);
  }
}
