/** The log reader of internal/binlog/client.go: events in, transactions out. */
module Binlog {
  import opened Common
  import opened Source

  type Row = seq<Value>

  datatype RowsKind = WriteRows | UpdateRows | DeleteRows | UnknownRows

  datatype Payload =
    | Rotate(nextLogName: string, start: nat)
    | Query(query: string, db: string)
    | Xid(xid: nat)
    | Rows(kind: RowsKind, schema: string, table: string, rows: seq<Row>)
    | Other

  datatype Event = Event(logPos: nat, timestamp: nat, payload: Payload)

  // ----------------------------------------------------------------- queries

  datatype QueryKind = Begin | Commit | Rollback | Ddl | Plain

  function Normalized(query: string): string {
    ToUpper(TrimRight(TrimLeft(query)))
  }

  predicate IsDDL(q: string) {
    "ALTER TABLE" <= q || "CREATE TABLE" <= q || "DROP TABLE" <= q || "RENAME TABLE" <= q
  }

  function KindOf(query: string): QueryKind {
    var q := Normalized(query);
    if q == "BEGIN" then Begin
    else if q == "COMMIT" then Commit
    else if q == "ROLLBACK" then Rollback
    else if IsDDL(q) then Ddl
    else Plain
  }

  predicate AllSpace(s: string) {
    forall i :: 0 <= i < |s| ==> IsSpace(s[i])
  }

  lemma {:induction false} TrimLeftPadded(pad: string, s: string)
    requires AllSpace(pad) && (s != "" ==> !IsSpace(s[0]))
    ensures TrimLeft(pad + s) == s
  {
    if pad == "" {
      assert pad + s == s;
    } else {
      assert (pad + s)[1..] == pad[1..] + s;
      TrimLeftPadded(pad[1..], s);
    }
  }

  lemma {:induction false} TrimRightPadded(s: string, pad: string)
    requires AllSpace(pad) && (s != "" ==> !IsSpace(s[|s| - 1]))
    ensures TrimRight(s + pad) == s
  {
    if pad == "" {
      assert s + pad == s;
    } else {
      assert (s + pad)[..|s + pad| - 1] == s + pad[..|pad| - 1];
      TrimRightPadded(s, pad[..|pad| - 1]);
    }
  }

  /** Space around a statement and the case of its letters do not matter. */
  lemma {:induction false} KindIgnoresPadding(left: string, word: string, right: string, upper: string)
    requires AllSpace(left) && AllSpace(right) && word != "" && ToUpper(word) == upper
    requires !IsSpace(word[0]) && !IsSpace(word[|word| - 1])
    ensures Normalized(left + word + right) == upper
    ensures upper == "BEGIN" ==> KindOf(left + word + right) == Begin
    ensures upper == "COMMIT" ==> KindOf(left + word + right) == Commit
    ensures upper == "ROLLBACK" ==> KindOf(left + word + right) == Rollback
    ensures upper !in {"BEGIN", "COMMIT", "ROLLBACK"} ==>
              (KindOf(left + word + right) == Ddl <==>
                exists start ::
                  start in ["ALTER TABLE", "CREATE TABLE", "DROP TABLE", "RENAME TABLE"] && start <= upper)
  {
    Assoc(left, word, right);
    TrimLeftPadded(left, word + right);
    TrimRightPadded(word, right);
    assert Normalized(left + word + right) == upper;
    var starts := ["ALTER TABLE", "CREATE TABLE", "DROP TABLE", "RENAME TABLE"];
    assert starts[0] in starts && starts[1] in starts && starts[2] in starts && starts[3] in starts;
  }

  /** Statements as clients write them. */
  lemma {:induction false} ControlExamples()
    ensures KindOf(" \t\nbegin\r ") == Begin && KindOf("Commit") == Commit && KindOf("rollback ") == Rollback
  {
    assert ToUpper("begin") == "BEGIN" && ToUpper("Commit") == "COMMIT" && ToUpper("rollback") == "ROLLBACK";
    KindIgnoresPadding(" \t\n", "begin", "\r ", "BEGIN");
    KindIgnoresPadding("", "Commit", "", "COMMIT");
    KindIgnoresPadding("", "rollback", " ", "ROLLBACK");
    assert " \t\n" + "begin" + "\r " == " \t\nbegin\r ";
    assert "" + "Commit" + "" == "Commit" && "" + "rollback" + " " == "rollback ";
  }

  lemma {:induction false} StatementExamples()
    ensures KindOf("alter table t") == Ddl && KindOf("select 1") == Plain
  {
    var alter, select := "alter table t", "select 1";
    assert "ALTER TABLE" <= ToUpper(alter) && ToUpper(select)[0] == 'S';
    KindIgnoresPadding("", alter, "", ToUpper(alter));
    KindIgnoresPadding("", select, "", ToUpper(select));
    assert "" + alter + "" == alter && "" + select + "" == select;
  }

  // -------------------------------------------------------------- row images

  function ColName(i: nat): string {
    "col_" + Decimal(i)
  }

  lemma {:induction false} ColNameInjective(i: nat, j: nat)
    requires ColName(i) == ColName(j)
    ensures i == j
  {
    assert ColName(i)[4..] == Decimal(i) && ColName(j)[4..] == Decimal(j);
    DecimalInjective(i, j);
  }

  function ImageOf(row: Row): Image {
    if row == [] then map[] else ImageOf(row[..|row| - 1])[ColName(|row| - 1) := row[|row| - 1]]
  }

  lemma {:induction false} ImageKey(row: Row, k: string)
    requires k in ImageOf(row)
    ensures exists i :: 0 <= i < |row| && k == ColName(i)
  {
    var n := |row| - 1;
    if k == ColName(n) {
      assert 0 <= n < |row|;
    } else {
      ImageKey(row[..n], k);
    }
  }

  /** The last column's name is new to the image of the columns before it. */
  lemma {:induction false} NextColIsNew(row: Row)
    ensures ColName(|row|) !in ImageOf(row)
  {
    if ColName(|row|) in ImageOf(row) {
      ImageKey(row, ColName(|row|));
      var i :| 0 <= i < |row| && ColName(|row|) == ColName(i);
      ColNameInjective(|row|, i);
    }
  }

  lemma {:induction false} ImageAt(row: Row, i: nat)
    requires i < |row|
    ensures ColName(i) in ImageOf(row) && ImageOf(row)[ColName(i)] == row[i]
  {
    var n := |row| - 1;
    if i < n {
      ImageAt(row[..n], i);
      if ColName(i) == ColName(n) { ColNameInjective(i, n); }
    }
  }

  lemma {:induction false} ImageSize(row: Row)
    ensures |ImageOf(row)| == |row|
  {
    if row != [] {
      var init := row[..|row| - 1];
      ImageSize(init);
      NextColIsNew(init);
    }
  }

  /** The image holds every column of the row, each under its own name, and nothing else. */
  ghost predicate Shows(image: Image, row: Row) {
    && |image| == |row|
    && forall c :: 0 <= c < |row| ==> "col_" + Decimal(c) in image && image["col_" + Decimal(c)] == row[c]
  }

  lemma {:induction false} ImageHoldsRow(row: Row)
    ensures Shows(ImageOf(row), row)
  {
    forall c | 0 <= c < |row|
      ensures "col_" + Decimal(c) in ImageOf(row) && ImageOf(row)["col_" + Decimal(c)] == row[c]
    {
      ImageAt(row, c);
      assert ColName(c) == "col_" + Decimal(c);
    }
    ImageSize(row);
  }

  // ------------------------------------------------------------------ row edits

  /** What a statement did to one row. */
  datatype RowEdit = Inserted(row: Row) | Replaced(before: Row, after: Row) | Removed(row: Row)

  /**
   * One rows event: edits of one kind on one table.  `stray` is what a reader
   * cannot make anything of: a single row at the end of an update event, or the
   * rows of an event of an unknown kind.
   */
  datatype Statement = Statement(
    kind: RowsKind, schema: string, table: string, edits: seq<RowEdit>, stray: seq<Row>)

  predicate OfKind(kind: RowsKind, edit: RowEdit) {
    match kind
    case WriteRows => edit.Inserted?
    case UpdateRows => edit.Replaced?
    case DeleteRows => edit.Removed?
    case UnknownRows => false
  }

  predicate StatementOk(st: Statement) {
    && (forall i :: 0 <= i < |st.edits| ==> OfKind(st.kind, st.edits[i]))
    && (st.stray != [] ==> st.kind == UnknownRows || (st.kind == UpdateRows && |st.stray| == 1))
  }

  /** The rows of one edit, as the log carries them: of an update, the row before and the row after. */
  function EditRows(edit: RowEdit): seq<Row> {
    match edit
    case Inserted(row) => [row]
    case Replaced(before, after) => [before, after]
    case Removed(row) => [row]
  }

  function AllRows(edits: seq<RowEdit>): seq<Row> {
    if edits == [] then [] else AllRows(edits[..|edits| - 1]) + EditRows(edits[|edits| - 1])
  }

  /** The log event of a statement. */
  function RowsEvent(st: Statement): Payload {
    Rows(st.kind, st.schema, st.table, AllRows(st.edits) + st.stray)
  }

  /** The change says what the edit did. */
  ghost predicate TellsEdit(change: RowChange, schema: string, table: string, edit: RowEdit) {
    && change.schema == schema && change.table == table
    && match edit
       case Inserted(row) =>
         change.action == Insert && change.before == None && change.after.Some? && Shows(change.after.value, row)
       case Replaced(before, after) =>
         && change.action == Update && change.before.Some? && Shows(change.before.value, before)
         && change.after.Some? && Shows(change.after.value, after)
       case Removed(row) =>
         change.action == Delete && change.before.Some? && Shows(change.before.value, row) && change.after == None
  }

  /** The changes say what the statement did, edit by edit. */
  ghost predicate TellsStatement(changes: seq<RowChange>, st: Statement) {
    && |changes| == |st.edits|
    && forall i :: 0 <= i < |changes| ==> TellsEdit(changes[i], st.schema, st.table, st.edits[i])
  }

  /** The change a reader should report for an edit. */
  function ChangeOf(schema: string, table: string, edit: RowEdit): RowChange {
    match edit
    case Inserted(row) => RowChange(schema, table, Insert, None, Some(ImageOf(row)))
    case Replaced(before, after) => RowChange(schema, table, Update, Some(ImageOf(before)), Some(ImageOf(after)))
    case Removed(row) => RowChange(schema, table, Delete, Some(ImageOf(row)), None)
  }

  function ChangesOf(st: Statement): (changes: seq<RowChange>)
    ensures |changes| == |st.edits|
  {
    seq(|st.edits|, i requires 0 <= i < |st.edits| => ChangeOf(st.schema, st.table, st.edits[i]))
  }

  lemma {:induction false} ChangesTell(st: Statement)
    ensures TellsStatement(ChangesOf(st), st)
  {
    forall i | 0 <= i < |st.edits| ensures TellsEdit(ChangesOf(st)[i], st.schema, st.table, st.edits[i]) {
      match st.edits[i]
      case Inserted(row) => ImageHoldsRow(row);
      case Replaced(before, after) => ImageHoldsRow(before); ImageHoldsRow(after);
      case Removed(row) => ImageHoldsRow(row);
    }
  }

  /** Where the rows of edit i are: of an update, at 2 * i and behind it. */
  lemma {:induction false} PairsAt(edits: seq<RowEdit>, i: nat)
    requires forall j :: 0 <= j < |edits| ==> edits[j].Replaced?
    ensures |AllRows(edits)| == 2 * |edits|
    ensures i < |edits| ==>
              AllRows(edits)[2 * i] == edits[i].before && AllRows(edits)[2 * i + 1] == edits[i].after
  {
    if edits != [] {
      PairsAt(edits[..|edits| - 1], i);
    }
  }

  lemma {:induction false} RowsAt(edits: seq<RowEdit>, i: nat)
    requires forall j :: 0 <= j < |edits| ==> !edits[j].Replaced?
    ensures |AllRows(edits)| == |edits|
    ensures i < |edits| ==> AllRows(edits)[i] == edits[i].row
  {
    if edits != [] {
      RowsAt(edits[..|edits| - 1], i);
    }
  }

  /** The changes of one row event; rows of an update come as before, after, before, after, ... */
  function Changes(kind: RowsKind, schema: string, table: string, rows: seq<Row>): seq<RowChange> {
    match kind
    case WriteRows =>
      seq(|rows|, i requires 0 <= i < |rows| => RowChange(schema, table, Insert, None, Some(ImageOf(rows[i]))))
    case DeleteRows =>
      seq(|rows|, i requires 0 <= i < |rows| => RowChange(schema, table, Delete, Some(ImageOf(rows[i])), None))
    case UpdateRows =>
      seq(|rows| / 2, i requires 0 <= i < |rows| / 2 =>
        RowChange(schema, table, Update, Some(ImageOf(rows[2 * i])), Some(ImageOf(rows[2 * i + 1]))))
    case UnknownRows => []
  }

  lemma {:induction false} ReadsUpdates(st: Statement, all: seq<Row>)
    requires StatementOk(st) && st.kind == UpdateRows && all == AllRows(st.edits) + st.stray
    ensures Changes(st.kind, st.schema, st.table, all) == ChangesOf(st)
  {
    PairsAt(st.edits, 0);
    forall i | 0 <= i < |st.edits|
      ensures Changes(st.kind, st.schema, st.table, all)[i] == ChangesOf(st)[i]
    {
      PairsAt(st.edits, i);
      assert all[2 * i] == AllRows(st.edits)[2 * i] && all[2 * i + 1] == AllRows(st.edits)[2 * i + 1];
    }
  }

  lemma {:induction false} ReadsRows(st: Statement, all: seq<Row>)
    requires StatementOk(st) && (st.kind == WriteRows || st.kind == DeleteRows) && all == AllRows(st.edits)
    ensures Changes(st.kind, st.schema, st.table, all) == ChangesOf(st)
  {
    RowsAt(st.edits, 0);
    forall i | 0 <= i < |st.edits|
      ensures Changes(st.kind, st.schema, st.table, all)[i] == ChangesOf(st)[i]
    {
      RowsAt(st.edits, i);
    }
  }

  /** Reading the rows event of a statement gives the changes it made. */
  lemma {:induction false} ReadsStatement(st: Statement)
    requires StatementOk(st)
    ensures Changes(st.kind, st.schema, st.table, AllRows(st.edits) + st.stray) == ChangesOf(st)
  {
    var all := AllRows(st.edits) + st.stray;
    if st.kind == UpdateRows {
      ReadsUpdates(st, all);
    } else if st.kind == UnknownRows {
      assert st.edits == [];
    } else {
      assert all == AllRows(st.edits);
      ReadsRows(st, all);
    }
  }

  /** The edits of the rows of an event, as many as can be made out. */
  function EditsIn(kind: RowsKind, rows: seq<Row>): seq<RowEdit> {
    match kind
    case WriteRows => seq(|rows|, i requires 0 <= i < |rows| => Inserted(rows[i]))
    case DeleteRows => seq(|rows|, i requires 0 <= i < |rows| => Removed(rows[i]))
    case UpdateRows =>
      seq(|rows| / 2, i requires 0 <= i < |rows| / 2 => Replaced(rows[2 * i], rows[2 * i + 1]))
    case UnknownRows => []
  }

  /** Every rows event is that of a statement. */
  lemma {:induction false} IsRowsEvent(kind: RowsKind, schema: string, table: string, rows: seq<Row>)
    returns (st: Statement)
    ensures StatementOk(st) && RowsEvent(st) == Rows(kind, schema, table, rows)
  {
    var edits := EditsIn(kind, rows);
    EditsCover(kind, rows, edits);
    var stray := rows[|AllRows(edits)|..];
    assert AllRows(edits) + stray == rows;
    st := Statement(kind, schema, table, edits, stray);
  }

  lemma {:induction false} EditsCover(kind: RowsKind, rows: seq<Row>, edits: seq<RowEdit>)
    requires edits == EditsIn(kind, rows)
    ensures AllRows(edits) <= rows
    ensures |rows| - |AllRows(edits)| ==
            if kind == UnknownRows then |rows| else if kind == UpdateRows then |rows| % 2 else 0
  {
    if kind == UpdateRows {
      PairsAt(edits, 0);
      forall k | 0 <= k < 2 * |edits| ensures AllRows(edits)[k] == rows[k] {
        PairsAt(edits, k / 2);
        assert k == 2 * (k / 2) || k == 2 * (k / 2) + 1;
      }
    } else if kind != UnknownRows {
      RowsAt(edits, 0);
      forall k | 0 <= k < |edits| ensures AllRows(edits)[k] == rows[k] {
        RowsAt(edits, k);
      }
    }
  }

  method BuildImage(row: Row) returns (image: Image)
    ensures image == ImageOf(row)
  {
    image := map[];
    for colIdx := 0 to |row|
      invariant image == ImageOf(row[..colIdx])
    {
      assert row[..colIdx + 1][..colIdx] == row[..colIdx];
      image := image["col_" + Decimal(colIdx) := row[colIdx]];
    }
    assert row[..|row|] == row;
  }

  method ParseWrites(schema: string, table: string, rows: seq<Row>) returns (changes: seq<RowChange>)
    ensures changes == Changes(WriteRows, schema, table, rows)
  {
    changes := [];
    for i := 0 to |rows|
      invariant changes == Changes(WriteRows, schema, table, rows)[..i]
    {
      var after := BuildImage(rows[i]);
      changes := changes + [RowChange(schema, table, Insert, None, Some(after))];
    }
  }

  method ParseDeletes(schema: string, table: string, rows: seq<Row>) returns (changes: seq<RowChange>)
    ensures changes == Changes(DeleteRows, schema, table, rows)
  {
    changes := [];
    for i := 0 to |rows|
      invariant changes == Changes(DeleteRows, schema, table, rows)[..i]
    {
      var before := BuildImage(rows[i]);
      changes := changes + [RowChange(schema, table, Delete, Some(before), None)];
    }
  }

  method ParseUpdates(schema: string, table: string, rows: seq<Row>) returns (changes: seq<RowChange>)
    ensures changes == Changes(UpdateRows, schema, table, rows)
  {
    changes := [];
    ghost var all, n := Changes(UpdateRows, schema, table, rows), 0;
    var i := 0;
    while i < |rows|
      invariant 0 <= n <= |all| && i == 2 * n <= |rows|
      invariant changes == all[..n]
      decreases |rows| - i
    {
      if i + 1 >= |rows| {
        break;
      }
      var before := BuildImage(rows[i]);
      var after := BuildImage(rows[i + 1]);
      assert all[n] == RowChange(schema, table, Update, Some(before), Some(after));
      changes := changes + [RowChange(schema, table, Update, Some(before), Some(after))];
      i := i + 2;
      n := n + 1;
    }
    assert n == |all|;
  }

  method ParseRowChanges(kind: RowsKind, schema: string, table: string, rows: seq<Row>)
    returns (changes: seq<RowChange>)
    ensures changes == Changes(kind, schema, table, rows)
    ensures forall st :: StatementOk(st) && RowsEvent(st) == Rows(kind, schema, table, rows) ==>
              TellsStatement(changes, st)
  {
    forall st | StatementOk(st) && RowsEvent(st) == Rows(kind, schema, table, rows)
      ensures TellsStatement(Changes(kind, schema, table, rows), st)
    {
      ReadsStatement(st);
      ChangesTell(st);
    }
    match kind {
      case WriteRows => changes := ParseWrites(schema, table, rows);
      case DeleteRows => changes := ParseDeletes(schema, table, rows);
      case UpdateRows => changes := ParseUpdates(schema, table, rows);
      case UnknownRows => changes := [];
    }
  }

  // ------------------------------------------------------------- the machine

  datatype ReadState = ReadState(inTx: bool, tx: Transaction, pos: Position)

  const NO_TX := Transaction("", Position("", 0), 0, [], "")

  /** The state in which reading starts at a position. */
  function Start(pos: Position): ReadState {
    ReadState(false, NO_TX, pos)
  }

  function TxID(file: string, logPos: nat): string {
    file + ":" + Decimal(logPos)
  }

  function UpdateCheckpoint(current: Position, pos: Position): Position {
    Position(if pos.file != "" then pos.file else current.file, pos.position)
  }

  /** An emitted transaction moves the current position to its own. */
  function Emit(s: ReadState, tx: Transaction): (ReadState, seq<Transaction>) {
    (s.(pos := UpdateCheckpoint(s.pos, tx.position)), [tx])
  }

  function Finish(s: ReadState, tx: Transaction): (ReadState, seq<Transaction>) {
    (ReadState(false, NO_TX, UpdateCheckpoint(s.pos, tx.position)), [tx])
  }

  function HandleQuery(s: ReadState, ev: Event): (ReadState, seq<Transaction>)
    requires ev.payload.Query?
  {
    match KindOf(ev.payload.query)
    case Begin =>
      (s.(inTx := true,
          tx := Transaction(TxID(s.pos.file, ev.logPos), Position(s.pos.file, ev.logPos), ev.timestamp, [], "")), [])
    case Commit =>
      if s.inTx then Finish(s, s.tx.(position := s.tx.position.(position := ev.logPos))) else (s, [])
    case Rollback => (s.(inTx := false, tx := NO_TX), [])
    case Ddl =>
      Emit(s, Transaction(TxID(s.pos.file, ev.logPos), Position(s.pos.file, ev.logPos), ev.timestamp,
                          [RowChange(ev.payload.db, "", DDL, None, None)], ev.payload.query))
    case Plain => (s, [])
  }

  function Handle(s: ReadState, ev: Event): (ReadState, seq<Transaction>) {
    match ev.payload
    case Rotate(name, start) => (s.(pos := Position(name, start % 0x1_0000_0000)), [])
    case Query(_, _) => HandleQuery(s, ev)
    case Xid(xid) =>
      if s.inTx then
        Finish(s, s.tx.(id := "xid:" + Decimal(xid), position := s.tx.position.(position := ev.logPos)))
      else (s, [])
    case Rows(kind, schema, table, rows) =>
      var changes := Changes(kind, schema, table, rows);
      if s.inTx then (s.(tx := s.tx.(changes := s.tx.changes + changes)), [])
      else Emit(s, Transaction(TxID(s.pos.file, ev.logPos), Position(s.pos.file, ev.logPos), ev.timestamp, changes, ""))
    case Other => (s, [])
  }

  function Step(s: ReadState, ev: Event): ReadState {
    var t := Handle(s, ev).0;
    if ev.logPos > 0 then t.(pos := t.pos.(position := ev.logPos)) else t
  }

  function Emitted(s: ReadState, ev: Event): seq<Transaction> {
    Handle(s, ev).1
  }

  function Run(s: ReadState, events: seq<Event>): ReadState
    decreases |events|
  {
    if events == [] then s else Run(Step(s, events[0]), events[1..])
  }

  function Output(s: ReadState, events: seq<Event>): seq<Transaction>
    decreases |events|
  {
    if events == [] then [] else Emitted(s, events[0]) + Output(Step(s, events[0]), events[1..])
  }

  lemma {:induction false} RunAppend(s: ReadState, xs: seq<Event>, ys: seq<Event>)
    ensures Run(s, xs + ys) == Run(Run(s, xs), ys)
    ensures Output(s, xs + ys) == Output(s, xs) + Output(Run(s, xs), ys)
    decreases |xs|
  {
    if xs == [] {
      assert xs + ys == ys;
    } else {
      var rest := xs[1..];
      assert (xs + ys)[1..] == rest + ys;
      RunAppend(Step(s, xs[0]), rest, ys);
      Assoc(Emitted(s, xs[0]), Output(Step(s, xs[0]), rest), Output(Run(s, xs), ys));
    }
  }

  class BinlogSource {
    var currentPos: Position

    constructor ()
      ensures currentPos == Position("", 0)
    {
      currentPos := Position("", 0);
    }

    method ResumeFrom(pos: Position)
      modifies this
      ensures currentPos == pos
    {
      currentPos := pos;
    }

    /** Handles one event; the local variables of the loop are passed in and out. */
    method OnEvent(inTx: bool, currentTx: Transaction, ev: Event)
      returns (inTx': bool, currentTx': Transaction, out: seq<Transaction>)
      modifies this
      ensures out == Emitted(ReadState(inTx, currentTx, old(currentPos)), ev)
      ensures ReadState(inTx', currentTx', currentPos) == Step(ReadState(inTx, currentTx, old(currentPos)), ev)
      ensures ev.logPos > 0 ==> currentPos.position == ev.logPos
      ensures ev.payload.Rotate? ==> currentPos.file == ev.payload.nextLogName
      ensures ev.payload.Rotate? && ev.logPos == 0 ==> currentPos.position == ev.payload.start % 0x1_0000_0000
      ensures !ev.payload.Rotate? && out == [] ==> currentPos.file == old(currentPos.file)
      ensures !ev.payload.Rotate? && out != [] ==>
                currentPos.file == if out[0].position.file != "" then out[0].position.file else old(currentPos.file)
      ensures !ev.payload.Rotate? && out == [] && ev.logPos == 0 ==> currentPos == old(currentPos)
    {
      inTx', currentTx', out := inTx, currentTx, [];
      match ev.payload {
        case Rotate(name, start) =>
          currentPos := Position(name, start % 0x1_0000_0000);
        case Query(query, db) =>
          inTx', currentTx', out := OnQuery(inTx, currentTx, ev);
        case Xid(xid) =>
          if inTx {
            currentTx' := currentTx'.(id := "xid:" + Decimal(xid));
            currentTx' := currentTx'.(position := currentTx'.position.(position := ev.logPos));
            currentPos := UpdateCheckpoint(currentPos, currentTx'.position);
            out := [currentTx'];
            inTx', currentTx' := false, NO_TX;
          }
        case Rows(kind, schema, table, rows) =>
          var changes := ParseRowChanges(kind, schema, table, rows);
          if inTx {
            currentTx' := currentTx'.(changes := currentTx'.changes + changes);
          } else {
            var file := currentPos.file;
            var autoTx := Transaction(TxID(file, ev.logPos), Position(file, ev.logPos), ev.timestamp, changes, "");
            currentPos := UpdateCheckpoint(currentPos, autoTx.position);
            out := [autoTx];
          }
        case Other =>
      }
      if ev.logPos > 0 {
        currentPos := currentPos.(position := ev.logPos);
      }
    }

    method OnQuery(inTx: bool, currentTx: Transaction, ev: Event)
      returns (inTx': bool, currentTx': Transaction, out: seq<Transaction>)
      requires ev.payload.Query?
      modifies this
      ensures ((ReadState(inTx', currentTx', currentPos), out)) ==
              HandleQuery(ReadState(inTx, currentTx, old(currentPos)), ev)
    {
      inTx', currentTx', out := inTx, currentTx, [];
      var file := currentPos.file;
      match KindOf(ev.payload.query) {
        case Begin =>
          inTx' := true;
          currentTx' := Transaction(TxID(file, ev.logPos), Position(file, ev.logPos), ev.timestamp, [], "");
        case Commit =>
          if inTx {
            currentTx' := currentTx'.(position := currentTx'.position.(position := ev.logPos));
            currentPos := UpdateCheckpoint(currentPos, currentTx'.position);
            out := [currentTx'];
            inTx', currentTx' := false, NO_TX;
          }
        case Rollback =>
          inTx', currentTx' := false, NO_TX;
        case Ddl =>
          var ddlTx := Transaction(TxID(file, ev.logPos), Position(file, ev.logPos), ev.timestamp,
                                   [RowChange(ev.payload.db, "", DDL, None, None)], ev.payload.query);
          currentPos := UpdateCheckpoint(currentPos, ddlTx.position);
          out := [ddlTx];
        case Plain =>
      }
    }

    /** The read loop over the events delivered before it is stopped. */
    method ReadLoop(events: seq<Event>) returns (out: seq<Transaction>)
      modifies this
      ensures out == Output(Start(old(currentPos)), events)
      ensures currentPos == Run(Start(old(currentPos)), events).pos
    {
      var inTx, currentTx := false, NO_TX;
      out := [];
      ghost var start := Start(currentPos);
      for i := 0 to |events|
        invariant ReadState(inTx, currentTx, currentPos) == Run(start, events[..i])
        invariant out == Output(start, events[..i])
      {
        assert events[..i + 1] == events[..i] + [events[i]];
        RunAppend(start, events[..i], [events[i]]);
        OneEvent(Run(start, events[..i]), events[i]);
        var emitted;
        inTx, currentTx, emitted := OnEvent(inTx, currentTx, events[i]);
        out := out + emitted;
      }
      assert events[..|events|] == events;
    }
  }

  lemma {:induction false} OneEvent(s: ReadState, ev: Event)
    ensures Run(s, [ev]) == Step(s, ev) && Output(s, [ev]) == Emitted(s, ev)
  {
    assert [ev][1..] == [];
  }

  // ---------------------------------------------------------------- resuming

  /** ev makes the reader emit a transaction and leaves no transaction open. */
  predicate Settles(s: ReadState, ev: Event) {
    match ev.payload
    case Query(q, _) => (KindOf(q) == Commit && s.inTx) || (KindOf(q) == Ddl && !s.inTx)
    case Xid(_) => s.inTx
    case Rows(_, _, _, _) => !s.inTx
    case _ => false
  }

  /** The open transaction, if any, began in the file being read. */
  predicate SameFile(s: ReadState) {
    (s.inTx ==> s.tx.position.file == s.pos.file) && (!s.inTx ==> s.tx == NO_TX)
  }

  /** After such an event the reader is in the state a restart at the emitted position gives. */
  lemma {:induction false} SettledIsRestart(s: ReadState, ev: Event)
    requires SameFile(s) && Settles(s, ev)
    ensures |Emitted(s, ev)| == 1
    ensures Emitted(s, ev)[0].position == Position(s.pos.file, ev.logPos)
    ensures Step(s, ev) == Start(Emitted(s, ev)[0].position)
  {
  }

  /** The only other emission is a DDL statement inside an open transaction, and there a restart differs. */
  lemma {:induction false} EmissionsSettle(s: ReadState, ev: Event)
    requires SameFile(s) && Emitted(s, ev) != []
    ensures Settles(s, ev) <==> Step(s, ev) == Start(Emitted(s, ev)[0].position)
    ensures !Settles(s, ev) <==> s.inTx && ev.payload.Query? && KindOf(ev.payload.query) == Ddl
  {
  }

  /** Restarting at the emitted position and reading on yields exactly the remaining output. */
  lemma {:induction false} ResumeIsSuffix(pos: Position, before: seq<Event>, ev: Event, rest: seq<Event>)
    requires var s := Run(Start(pos), before); SameFile(s) && Settles(s, ev)
    ensures var s := Run(Start(pos), before);
            Output(Start(pos), before + [ev] + rest) ==
            Output(Start(pos), before + [ev]) + Output(Start(Emitted(s, ev)[0].position), rest)
  {
    var s := Run(Start(pos), before);
    RunAppend(Start(pos), before + [ev], rest);
    RunAppend(Start(pos), before, [ev]);
    OneEvent(s, ev);
    SettledIsRestart(s, ev);
  }
}
