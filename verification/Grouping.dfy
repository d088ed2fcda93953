/**
 * Logs rendered from lists of transactions, and what the reader makes of them.
 */
module Grouping {
  import opened Common
  import opened Source
  import opened Binlog

  /** What stands inside a transaction: a statement at its place in the log, or an event of no interest. */
  datatype Piece = Stmt(logPos: nat, timestamp: nat, st: Statement) | Pad(ev: Event)

  /** What a log is rendered from. */
  datatype Item =
    | Committed(begin: Event, body: seq<Piece>, end: Event)
    | RolledBack(begin: Event, body: seq<Piece>, end: Event)
    | Unfinished(begin: Event, body: seq<Piece>)
    | Auto(logPos: nat, timestamp: nat, st: Statement)
    | Schema(ev: Event)
    | Switch(ev: Event)
    | Noise(ev: Event)

  predicate IsQuery(ev: Event, kind: QueryKind) {
    ev.payload.Query? && KindOf(ev.payload.query) == kind
  }

  predicate PieceOk(p: Piece) {
    match p
    case Stmt(_, _, st) => StatementOk(st)
    case Pad(ev) => ev.payload.Other? || IsQuery(ev, Plain)
  }

  predicate AllOk(body: seq<Piece>) {
    forall i :: 0 <= i < |body| ==> PieceOk(body[i])
  }

  /** The pieces of an item are of the right kind; rotations stand only between items. */
  predicate WellFormed(item: Item) {
    match item
    case Committed(b, body, e) => IsQuery(b, Begin) && AllOk(body) && (IsQuery(e, Commit) || e.payload.Xid?)
    case RolledBack(b, body, e) => IsQuery(b, Begin) && AllOk(body) && IsQuery(e, Rollback)
    case Unfinished(b, body) => IsQuery(b, Begin) && AllOk(body)
    case Auto(_, _, st) => StatementOk(st)
    case Schema(ev) => IsQuery(ev, Ddl)
    case Switch(ev) => ev.payload.Rotate?
    case Noise(ev) => ev.payload.Other? || IsQuery(ev, Plain)
  }

  function EventOf(p: Piece): Event {
    match p
    case Stmt(logPos, timestamp, st) => Event(logPos, timestamp, RowsEvent(st))
    case Pad(ev) => ev
  }

  function Events(body: seq<Piece>): seq<Event> {
    if body == [] then [] else [EventOf(body[0])] + Events(body[1..])
  }

  function Render(item: Item): seq<Event> {
    match item
    case Committed(b, body, e) => [b] + Events(body) + [e]
    case RolledBack(b, body, e) => [b] + Events(body) + [e]
    case Unfinished(b, body) => [b] + Events(body)
    case Auto(logPos, timestamp, st) => [Event(logPos, timestamp, RowsEvent(st))]
    case Schema(ev) => [ev]
    case Switch(ev) => [ev]
    case Noise(ev) => [ev]
  }

  function RenderAll(items: seq<Item>): seq<Event> {
    if items == [] then [] else Render(items[0]) + RenderAll(items[1..])
  }

  function PieceChanges(p: Piece): seq<RowChange> {
    if p.Stmt? then ChangesOf(p.st) else []
  }

  function BodyChanges(body: seq<Piece>): seq<RowChange> {
    if body == [] then [] else PieceChanges(body[0]) + BodyChanges(body[1..])
  }

  /** The transactions a reader of `file` should report for an item. */
  function Reported(file: string, item: Item): seq<Transaction>
    requires WellFormed(item)
  {
    match item
    case Committed(b, body, e) =>
      [Transaction(if e.payload.Xid? then "xid:" + Decimal(e.payload.xid) else file + ":" + Decimal(b.logPos),
                   Position(file, e.logPos), b.timestamp, BodyChanges(body), "")]
    case Auto(logPos, timestamp, st) =>
      [Transaction(file + ":" + Decimal(logPos), Position(file, logPos), timestamp, ChangesOf(st), "")]
    case Schema(ev) =>
      [Transaction(file + ":" + Decimal(ev.logPos), Position(file, ev.logPos), ev.timestamp,
                   [RowChange(ev.payload.db, "", DDL, None, None)], ev.payload.query)]
    case _ => []
  }

  function FileAfter(file: string, item: Item): string
    requires WellFormed(item)
  {
    if item.Switch? then item.ev.payload.nextLogName else file
  }

  predicate AllWellFormed(items: seq<Item>) {
    forall i :: 0 <= i < |items| ==> WellFormed(items[i])
  }

  /** The committed, autocommit and DDL transactions of the whole log, in order. */
  function ReportedAll(file: string, items: seq<Item>): seq<Transaction>
    requires AllWellFormed(items)
    decreases |items|
  {
    if items == [] then []
    else Reported(file, items[0]) + ReportedAll(FileAfter(file, items[0]), items[1..])
  }

  /** Whether a transaction is left open after an item. */
  predicate OpenAfter(open: bool, item: Item) {
    match item
    case Committed(_, _, _) => false
    case RolledBack(_, _, _) => false
    case Unfinished(_, _) => true
    case _ => open
  }

  /** The number of autocommit statements that follow an unfinished transaction. */
  function Stranded(open: bool, items: seq<Item>): nat
    decreases |items|
  {
    if items == [] then 0
    else (if open && items[0].Auto? then 1 else 0) + Stranded(OpenAfter(open, items[0]), items[1..])
  }

  /** What the reader does report: a stranded statement joins the open transaction and is not reported. */
  function Seen(open: bool, file: string, items: seq<Item>): seq<Transaction>
    requires AllWellFormed(items)
    decreases |items|
  {
    if items == [] then []
    else
      (if open && items[0].Auto? then [] else Reported(file, items[0])) +
      Seen(OpenAfter(open, items[0]), FileAfter(file, items[0]), items[1..])
  }

  // ------------------------------------------------------------------ proofs

  /** An event inside a transaction adds its changes and reports nothing. */
  lemma {:induction false} PieceStep(s: ReadState, p: Piece)
    requires s.inTx && PieceOk(p)
    ensures Emitted(s, EventOf(p)) == []
    ensures var t := Step(s, EventOf(p));
            t.inTx && t.tx == s.tx.(changes := s.tx.changes + PieceChanges(p)) && t.pos.file == s.pos.file
  {
    if p.Stmt? {
      ReadsStatement(p.st);
    }
  }

  lemma {:induction false} BodyRun(s: ReadState, body: seq<Piece>)
    requires s.inTx && AllOk(body)
    ensures Output(s, Events(body)) == []
    ensures var t := Run(s, Events(body));
            t.inTx && t.tx == s.tx.(changes := s.tx.changes + BodyChanges(body)) && t.pos.file == s.pos.file
    decreases |body|
  {
    if body != [] {
      var rest := body[1..];
      PieceStep(s, body[0]);
      assert Events(body)[1..] == Events(rest);
      BodyRun(Step(s, EventOf(body[0])), rest);
      Assoc(s.tx.changes, PieceChanges(body[0]), BodyChanges(rest));
    }
  }

  /** BEGIN and the body: the transaction so far is open, with the changes of the body in order. */
  lemma {:induction false} OpenRun(s: ReadState, b: Event, body: seq<Piece>)
    requires IsQuery(b, Begin) && AllOk(body)
    ensures Output(s, [b] + Events(body)) == []
    ensures var t := Run(s, [b] + Events(body));
            && t.inTx && t.pos.file == s.pos.file
            && t.tx == Transaction(s.pos.file + ":" + Decimal(b.logPos), Position(s.pos.file, b.logPos), b.timestamp,
                                   BodyChanges(body), "")
  {
    OneEvent(s, b);
    RunAppend(s, [b], Events(body));
    var u := Step(s, b);
    BodyRun(u, body);
    assert u.tx.changes + BodyChanges(body) == BodyChanges(body);
  }

  lemma {:induction false} ClosedRun(s: ReadState, b: Event, body: seq<Piece>, e: Event)
    requires IsQuery(b, Begin) && AllOk(body)
    ensures Run(s, [b] + Events(body) + [e]) == Step(Run(s, [b] + Events(body)), e)
    ensures Output(s, [b] + Events(body) + [e]) == Emitted(Run(s, [b] + Events(body)), e)
  {
    OpenRun(s, b, body);
    RunAppend(s, [b] + Events(body), [e]);
    OneEvent(Run(s, [b] + Events(body)), e);
  }

  lemma {:induction false} ItemRun(s: ReadState, item: Item)
    requires WellFormed(item)
    ensures Output(s, Render(item)) == if s.inTx && item.Auto? then [] else Reported(s.pos.file, item)
    ensures Run(s, Render(item)).inTx == OpenAfter(s.inTx, item)
    ensures Run(s, Render(item)).pos.file == FileAfter(s.pos.file, item)
  {
    match item
    case Committed(b, body, e) =>
      OpenRun(s, b, body);
      ClosedRun(s, b, body, e);
    case RolledBack(b, body, e) =>
      OpenRun(s, b, body);
      ClosedRun(s, b, body, e);
    case Unfinished(b, body) =>
      OpenRun(s, b, body);
    case Auto(logPos, timestamp, st) =>
      OneEvent(s, Event(logPos, timestamp, RowsEvent(st)));
      ReadsStatement(st);
    case _ =>
      OneEvent(s, item.ev);
  }

  /** The changes of a transaction body say what its statements did, edit by edit, in order. */
  ghost predicate TellsBody(changes: seq<RowChange>, body: seq<Piece>) {
    if body == [] then changes == []
    else if body[0].Stmt? then
      var n := |body[0].st.edits|;
      n <= |changes| && TellsStatement(changes[..n], body[0].st) && TellsBody(changes[n..], body[1..])
    else TellsBody(changes, body[1..])
  }

  lemma {:induction false} BodyTells(body: seq<Piece>)
    ensures TellsBody(BodyChanges(body), body)
  {
    if body != [] {
      BodyTells(body[1..]);
      if body[0].Stmt? {
        ChangesTell(body[0].st);
        Cut(ChangesOf(body[0].st), BodyChanges(body[1..]));
      } else {
        assert [] + BodyChanges(body[1..]) == BodyChanges(body[1..]);
      }
    }
  }

  lemma {:induction false} ReaderSees(s: ReadState, items: seq<Item>)
    requires AllWellFormed(items)
    ensures Output(s, RenderAll(items)) == Seen(s.inTx, s.pos.file, items)
    decreases |items|
  {
    if items != [] {
      var rest := items[1..];
      ItemRun(s, items[0]);
      RunAppend(s, Render(items[0]), RenderAll(rest));
      ReaderSees(Run(s, Render(items[0])), rest);
    }
  }

  lemma {:induction false} SeenCount(open: bool, file: string, items: seq<Item>)
    requires AllWellFormed(items)
    ensures |Seen(open, file, items)| + Stranded(open, items) == |ReportedAll(file, items)|
    ensures Stranded(open, items) == 0 ==> Seen(open, file, items) == ReportedAll(file, items)
    decreases |items|
  {
    if items != [] {
      SeenCount(OpenAfter(open, items[0]), FileAfter(file, items[0]), items[1..]);
    }
  }

  /** What is reported of an item says what its statements did, edit by edit, in order. */
  ghost predicate TellsItem(out: seq<Transaction>, item: Item) {
    match item
    case Committed(_, body, _) => |out| == 1 && TellsBody(out[0].changes, body)
    case Auto(_, _, st) => |out| == 1 && TellsStatement(out[0].changes, st)
    case _ => true
  }

  lemma {:induction false} ReportedTells(file: string, item: Item)
    requires WellFormed(item)
    ensures TellsItem(Reported(file, item), item)
  {
    match item
    case Committed(_, body, _) => BodyTells(body);
    case Auto(_, _, st) => ChangesTell(st);
    case _ =>
  }

  /**
   * Reading undoes rendering exactly if no autocommit statement follows an
   * unfinished transaction; otherwise one transaction is missing for each such
   * statement.  By ReportedTells the transactions reported say, edit by edit,
   * what the statements they were rendered from did.
   */
  lemma {:induction false} GroupingUndoesRendering(pos: Position, items: seq<Item>)
    requires AllWellFormed(items)
    ensures var out := Output(Start(pos), RenderAll(items));
            && (out == ReportedAll(pos.file, items) <==> Stranded(false, items) == 0)
            && |out| + Stranded(false, items) == |ReportedAll(pos.file, items)|
    ensures forall i :: 0 <= i < |items| ==> TellsItem(Reported(FileAt(pos.file, items, i), items[i]), items[i])
  {
    ReaderSees(Start(pos), items);
    SeenCount(false, pos.file, items);
    forall i | 0 <= i < |items| ensures TellsItem(Reported(FileAt(pos.file, items, i), items[i]), items[i]) {
      ReportedTells(FileAt(pos.file, items, i), items[i]);
    }
  }

  /** The file being read at item i. */
  function FileAt(file: string, items: seq<Item>, i: nat): string
    requires AllWellFormed(items) && i <= |items|
    decreases |items|
  {
    if i == 0 then file else FileAt(FileAfter(file, items[0]), items[1..], i - 1)
  }

  /** The smallest log that is not read back: an unfinished transaction, then one autocommit statement. */
  lemma {:induction false} StrandedStatementIsLost(pos: Position, begin: Event, auto: Item)
    requires IsQuery(begin, Begin) && auto.Auto? && WellFormed(auto)
    ensures var items := [Unfinished(begin, []), auto];
            Output(Start(pos), RenderAll(items)) == [] && |ReportedAll(pos.file, items)| == 1
  {
    var items, rest := [Unfinished(begin, []), auto], [auto];
    assert items[1..] == rest && rest[1..] == [];
    assert Stranded(true, rest) == 1 + Stranded(true, []) == 1;
    assert Stranded(false, items) == Stranded(true, rest);
    assert ReportedAll(pos.file, items) == [] + ReportedAll(pos.file, rest);
    assert |ReportedAll(pos.file, rest)| == 1 + |ReportedAll(pos.file, [])|;
    GroupingUndoesRendering(pos, items);
  }
}
