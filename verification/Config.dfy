/** Table configuration of internal/config/config.go, kept up to date from changes to _audit_config. */
module Config {
  import opened Common
  import opened Source

  datatype TableConfig = TableConfig(
    tableName: string,
    enabled: bool,
    unattributedPolicy: string,
    severityTier: string,
    encryptedColumns: seq<string>,
    bootstrapRequired: bool,
    bootstrapStatus: string)

  /** What the JSON decoder makes of an encrypted_columns text. */
  type ColumnDecoder = Value -> seq<string>

  function TextOr(row: Image, key: string, default: string): string {
    if key in row && row[key].Str? then row[key].text else default
  }

  /** A flag column is a boolean, or an integer that means true when it is 1. */
  function FlagOf(row: Image, key: string): bool {
    key in row && ((row[key].Bool? && row[key].flag) || (row[key].Int? && row[key].number == 1))
  }

  function StringsIn(items: seq<Value>): seq<string> {
    if items == [] then []
    else (if items[0].Str? then [items[0].text] else []) + StringsIn(items[1..])
  }

  function ColumnsOf(dec: ColumnDecoder, row: Image): seq<string> {
    if "encrypted_columns" !in row then []
    else
      match row["encrypted_columns"]
      case Str(_) => dec(row["encrypted_columns"])
      case Raw(_) => dec(row["encrypted_columns"])
      case List(items) => StringsIn(items)
      case _ => []
  }

  /** parseConfigFromMap */
  function Parse(dec: ColumnDecoder, row: Image): TableConfig {
    TableConfig(
      TextOr(row, "table_name", ""),
      FlagOf(row, "enabled"),
      TextOr(row, "unattributed_policy", "tolerate"),
      TextOr(row, "severity_tier", "normal"),
      ColumnsOf(dec, row),
      FlagOf(row, "bootstrap_required"),
      TextOr(row, "bootstrap_status", "not_started"))
  }

  /** The text in a column, or a default if there is none. */
  ghost predicate HasText(row: Image, column: string, default: string, text: string) {
    text == if column in row && row[column].Str? then row[column].text else default
  }

  /** The flag in a column: on if it is true or 1. */
  ghost predicate HasFlag(row: Image, column: string, flag: bool) {
    flag <==> column in row && (row[column] == Bool(true) || row[column] == Int(1))
  }

  /** The texts among the items, in order. */
  ghost predicate AreTextsOf(items: seq<Value>, texts: seq<string>) {
    if items == [] then texts == []
    else if items[0].Str? then texts != [] && texts[0] == items[0].text && AreTextsOf(items[1..], texts[1..])
    else AreTextsOf(items[1..], texts)
  }

  lemma {:induction false} StringsAreTexts(items: seq<Value>)
    ensures AreTextsOf(items, StringsIn(items))
  {
    if items != [] {
      StringsAreTexts(items[1..]);
      if !items[0].Str? {
        assert [] + StringsIn(items[1..]) == StringsIn(items[1..]);
      }
    }
  }

  ghost predicate HasColumns(dec: ColumnDecoder, row: Image, cols: seq<string>) {
    if "encrypted_columns" !in row then cols == []
    else
      var v := row["encrypted_columns"];
      if v.Str? || v.Raw? then cols == dec(v)
      else if v.List? then AreTextsOf(v.items, cols)
      else cols == []
  }

  /** The configuration a row says, columns of another type counting as absent, with the defaults for those. */
  ghost predicate IsSaidBy(dec: ColumnDecoder, row: Image, cfg: TableConfig) {
    && HasText(row, "table_name", "", cfg.tableName) && HasFlag(row, "enabled", cfg.enabled)
    && HasText(row, "unattributed_policy", "tolerate", cfg.unattributedPolicy)
    && HasText(row, "severity_tier", "normal", cfg.severityTier)
    && HasFlag(row, "bootstrap_required", cfg.bootstrapRequired)
    && HasText(row, "bootstrap_status", "not_started", cfg.bootstrapStatus)
    && HasColumns(dec, row, cfg.encryptedColumns)
  }

  method ParseFlag(row: Image, column: string) returns (flag: bool)
    ensures flag == FlagOf(row, column) && HasFlag(row, column, flag)
  {
    flag := false;
    if column in row {
      if row[column].Bool? {
        flag := row[column].flag;
      } else if row[column].Int? {
        flag := row[column].number == 1;
      }
    }
  }

  method ParseColumns(dec: ColumnDecoder, row: Image) returns (cols: seq<string>)
    ensures cols == ColumnsOf(dec, row) && HasColumns(dec, row, cols)
  {
    cols := [];
    if "encrypted_columns" in row {
      match row["encrypted_columns"] {
        case Str(_) => cols := dec(row["encrypted_columns"]);
        case Raw(_) => cols := dec(row["encrypted_columns"]);
        case List(items) =>
          for i := 0 to |items|
            invariant StringsIn(items) == cols + StringsIn(items[i..])
          {
            ghost var before := cols;
            assert items[i..][1..] == items[i + 1..];
            if items[i].Str? {
              cols := cols + [items[i].text];
            }
          }
          StringsAreTexts(items);
        case _ =>
      }
    }
  }

  /** parseConfigFromMap */
  method ParseConfigFromMap(dec: ColumnDecoder, row: Image) returns (cfg: TableConfig)
    ensures cfg == Parse(dec, row) && IsSaidBy(dec, row, cfg)
  {
    var enabled := ParseFlag(row, "enabled");
    var required := ParseFlag(row, "bootstrap_required");
    var cols := ParseColumns(dec, row);
    cfg := TableConfig(
      TextOr(row, "table_name", ""), enabled, TextOr(row, "unattributed_policy", "tolerate"),
      TextOr(row, "severity_tier", "normal"), cols, required, TextOr(row, "bootstrap_status", "not_started"));
  }

  /** A value that holds the encrypted columns: a list of texts, or a JSON text or bytes that decode to them. */
  predicate HoldsColumns(dec: ColumnDecoder, v: Value, cols: seq<string>) {
    v == List(TextValues(cols)) || ((v.Str? || v.Raw?) && dec(v) == cols)
  }

  /** A row holding a configuration; a flag may come as a boolean or as an integer. */
  function RowFor(cfg: TableConfig, cols: Value, flagsAsInts: bool): Image {
    map["table_name" := Str(cfg.tableName),
        "enabled" := FlagValue(cfg.enabled, flagsAsInts),
        "unattributed_policy" := Str(cfg.unattributedPolicy),
        "severity_tier" := Str(cfg.severityTier),
        "encrypted_columns" := cols,
        "bootstrap_required" := FlagValue(cfg.bootstrapRequired, flagsAsInts),
        "bootstrap_status" := Str(cfg.bootstrapStatus)]
  }

  function FlagValue(flag: bool, asInt: bool): Value {
    if asInt then Int(if flag then 1 else 0) else Bool(flag)
  }

  function TextValues(texts: seq<string>): seq<Value> {
    if texts == [] then [] else [Str(texts[0])] + TextValues(texts[1..])
  }

  lemma {:induction false} StringsInTexts(texts: seq<string>)
    ensures StringsIn(TextValues(texts)) == texts
  {
    if texts != [] {
      StringsInTexts(texts[1..]);
    }
  }

  /** Parsing a complete row gives back the configuration it holds. */
  lemma {:induction false} ParseReadsRow(dec: ColumnDecoder, cfg: TableConfig, cols: Value, flagsAsInts: bool)
    requires HoldsColumns(dec, cols, cfg.encryptedColumns)
    ensures Parse(dec, RowFor(cfg, cols, flagsAsInts)) == cfg
  {
    var row, parsed := RowFor(cfg, cols, flagsAsInts), Parse(dec, RowFor(cfg, cols, flagsAsInts));
    assert |"table_name"| == 10 && |"enabled"| == 7 && |"unattributed_policy"| == 19 && |"severity_tier"| == 13;
    assert |"encrypted_columns"| == 17 && |"bootstrap_required"| == 18 && |"bootstrap_status"| == 16;
    StringsInTexts(cfg.encryptedColumns);
    assert row["encrypted_columns"] == cols;
    assert parsed.tableName == cfg.tableName && parsed.enabled == cfg.enabled;
    assert parsed.unattributedPolicy == cfg.unattributedPolicy && parsed.severityTier == cfg.severityTier;
    assert parsed.bootstrapRequired == cfg.bootstrapRequired && parsed.bootstrapStatus == cfg.bootstrapStatus;
  }

  /** HandleBinlogEvent: the cache after one change. */
  function Applied(dec: ColumnDecoder, tables: map<string, TableConfig>, change: RowChange): map<string, TableConfig> {
    if change.table != "_audit_config" then tables
    else if change.action == Insert || change.action == Update then
      if change.after.None? then tables
      else
        var cfg := Parse(dec, change.after.value);
        tables[cfg.tableName := cfg]
    else if change.action == Delete && change.before.Some? && TextOr(change.before.value, "table_name", "") != "" then
      tables - {TextOr(change.before.value, "table_name", "")}
    else tables
  }

  class Manager {
    const dec: ColumnDecoder
    var tables: map<string, TableConfig>

    constructor (dec: ColumnDecoder)
      ensures this.dec == dec && tables == map[]
    {
      this.dec, tables := dec, map[];
    }

    method SetTableConfig(cfg: TableConfig)
      modifies this
      ensures tables == old(tables)[cfg.tableName := cfg]
    {
      tables := tables[cfg.tableName := cfg];
    }

    method HandleBinlogEvent(change: RowChange)
      modifies this
      ensures tables == Applied(dec, old(tables), change)
    {
      if change.table != "_audit_config" {
        return;
      }
      match change.action {
        case Insert =>
          if change.after.Some? {
            var cfg := ParseConfigFromMap(dec, change.after.value);
            tables := tables[cfg.tableName := cfg];
          }
        case Update =>
          if change.after.Some? {
            var cfg := ParseConfigFromMap(dec, change.after.value);
            tables := tables[cfg.tableName := cfg];
          }
        case Delete =>
          if change.before.Some? {
            var tableName := TextOr(change.before.value, "table_name", "");
            if tableName != "" {
              tables := tables - {tableName};
            }
          }
        case _ =>
      }
    }
  }

  // ------------------------------------------- the cache and the table itself

  /** The live rows of _audit_config, under their table_name. */
  type Table = map<string, Image>

  function NameOf(row: Image): string {
    TextOr(row, "table_name", "")
  }

  datatype Edit = InsertRow(row: Image) | UpdateRow(before: Image, after: Image) | DeleteRow(row: Image)

  /** An edit the database can make: new rows are new, old rows are there, and every row has a name. */
  predicate CanEdit(table: Table, edit: Edit) {
    match edit
    case InsertRow(row) => NameOf(row) != "" && NameOf(row) !in table
    case UpdateRow(before, after) =>
      && NameOf(before) != "" && NameOf(before) in table && table[NameOf(before)] == before
      && NameOf(after) != "" && (NameOf(after) == NameOf(before) || NameOf(after) !in table)
    case DeleteRow(row) => NameOf(row) != "" && NameOf(row) in table && table[NameOf(row)] == row
  }

  function Edited(table: Table, edit: Edit): Table {
    match edit
    case InsertRow(row) => table[NameOf(row) := row]
    case UpdateRow(before, after) => (table - {NameOf(before)})[NameOf(after) := after]
    case DeleteRow(row) => table - {NameOf(row)}
  }

  /** The change event an edit shows up as. */
  function ChangeFor(edit: Edit): RowChange {
    match edit
    case InsertRow(row) => RowChange("", "_audit_config", Insert, None, Some(row))
    case UpdateRow(before, after) => RowChange("", "_audit_config", Update, Some(before), Some(after))
    case DeleteRow(row) => RowChange("", "_audit_config", Delete, Some(row), None)
  }

  /** The cache holds exactly the parse of each live row. */
  ghost predicate Agrees(dec: ColumnDecoder, tables: map<string, TableConfig>, table: Table) {
    && tables.Keys == table.Keys
    && forall n :: n in table ==> tables[n] == Parse(dec, table[n])
  }

  /** The edit gives a row another table_name. */
  predicate Renames(edit: Edit) {
    edit.UpdateRow? && NameOf(edit.before) != NameOf(edit.after)
  }

  /** One edit keeps the cache in agreement exactly if it does not rename a row. */
  lemma {:induction false} EditAgreesIff(dec: ColumnDecoder, tables: map<string, TableConfig>, table: Table, edit: Edit)
    requires Agrees(dec, tables, table) && CanEdit(table, edit)
    ensures Agrees(dec, Applied(dec, tables, ChangeFor(edit)), Edited(table, edit)) <==> !Renames(edit)
  {
    if Renames(edit) {
      assert NameOf(edit.before) in Applied(dec, tables, ChangeFor(edit));
      assert NameOf(edit.before) !in Edited(table, edit);
    }
  }

  function AppliedAll(dec: ColumnDecoder, tables: map<string, TableConfig>, changes: seq<RowChange>)
    : map<string, TableConfig>
    decreases |changes|
  {
    if changes == [] then tables else AppliedAll(dec, Applied(dec, tables, changes[0]), changes[1..])
  }

  function EditedAll(table: Table, edits: seq<Edit>): Table
    decreases |edits|
  {
    if edits == [] then table else EditedAll(Edited(table, edits[0]), edits[1..])
  }

  ghost predicate CanEditAll(table: Table, edits: seq<Edit>)
    decreases |edits|
  {
    edits == [] || (CanEdit(table, edits[0]) && CanEditAll(Edited(table, edits[0]), edits[1..]))
  }

  function ChangesFor(edits: seq<Edit>): (changes: seq<RowChange>)
    ensures |changes| == |edits|
  {
    seq(|edits|, i requires 0 <= i < |edits| => ChangeFor(edits[i]))
  }

  /** The cache agrees with the table after the first n edits. */
  ghost predicate AgreesAfter(dec: ColumnDecoder, tables: map<string, TableConfig>, table: Table,
                              edits: seq<Edit>, n: nat)
    requires n <= |edits|
  {
    Agrees(dec, AppliedAll(dec, tables, ChangesFor(edits[..n])), EditedAll(table, edits[..n]))
  }

  lemma {:induction false} AgreesAfterFirst(dec: ColumnDecoder, tables: map<string, TableConfig>, table: Table,
                                            edits: seq<Edit>, n: nat)
    requires n < |edits|
    ensures AgreesAfter(dec, tables, table, edits, n + 1) <==>
            AgreesAfter(dec, Applied(dec, tables, ChangeFor(edits[0])), Edited(table, edits[0]), edits[1..], n)
  {
    var pre, rest := edits[..n + 1], edits[1..];
    assert pre[1..] == rest[..n] && ChangesFor(pre)[1..] == ChangesFor(rest[..n]);
  }

  /** The cache agrees with the table after every prefix of the edits. */
  ghost predicate AgreesThroughout(dec: ColumnDecoder, tables: map<string, TableConfig>, table: Table, edits: seq<Edit>)
  {
    forall n :: 0 <= n <= |edits| ==> AgreesAfter(dec, tables, table, edits, n)
  }

  predicate RenamesNone(edits: seq<Edit>) {
    forall i :: 0 <= i < |edits| ==> !Renames(edits[i])
  }

  lemma {:induction false} ThroughoutFirst(dec: ColumnDecoder, tables: map<string, TableConfig>, table: Table,
                                           edits: seq<Edit>)
    requires Agrees(dec, tables, table) && edits != []
    ensures AgreesThroughout(dec, tables, table, edits) <==>
            AgreesThroughout(dec, Applied(dec, tables, ChangeFor(edits[0])), Edited(table, edits[0]), edits[1..])
  {
    var tables1, table1, rest := Applied(dec, tables, ChangeFor(edits[0])), Edited(table, edits[0]), edits[1..];
    forall n | 0 <= n < |edits|
      ensures AgreesAfter(dec, tables, table, edits, n + 1) <==> AgreesAfter(dec, tables1, table1, rest, n)
    {
      AgreesAfterFirst(dec, tables, table, edits, n);
    }
    assert AgreesAfter(dec, tables, table, edits, 0);
    if AgreesThroughout(dec, tables, table, edits) {
      forall n | 0 <= n <= |rest| ensures AgreesAfter(dec, tables1, table1, rest, n) {
        assert AgreesAfter(dec, tables, table, edits, n + 1);
      }
    }
    if AgreesThroughout(dec, tables1, table1, rest) {
      forall n | 0 <= n <= |edits| ensures AgreesAfter(dec, tables, table, edits, n) {
        assert n > 0 ==> AgreesAfter(dec, tables1, table1, rest, n - 1);
      }
    }
  }

  lemma {:induction false} RenamesFirst(edits: seq<Edit>)
    requires edits != []
    ensures RenamesNone(edits) <==> !Renames(edits[0]) && RenamesNone(edits[1..])
  {
    if !Renames(edits[0]) && RenamesNone(edits[1..]) {
      forall i | 0 <= i < |edits| ensures !Renames(edits[i]) {
        assert i > 0 ==> edits[i] == edits[1..][i - 1];
      }
    }
  }

  /** Along any sequence of edits the cache agrees with the table throughout exactly if none renames a row. */
  lemma {:induction false} CacheFollowsTable(dec: ColumnDecoder, tables: map<string, TableConfig>, table: Table,
                                             edits: seq<Edit>)
    requires Agrees(dec, tables, table) && CanEditAll(table, edits)
    ensures AgreesThroughout(dec, tables, table, edits) <==> RenamesNone(edits)
    decreases |edits|
  {
    if edits == [] {
      assert AgreesAfter(dec, tables, table, edits, 0);
    } else {
      var tables1, table1 := Applied(dec, tables, ChangeFor(edits[0])), Edited(table, edits[0]);
      EditAgreesIff(dec, tables, table, edits[0]);
      ThroughoutFirst(dec, tables, table, edits);
      RenamesFirst(edits);
      if Renames(edits[0]) {
        assert !AgreesAfter(dec, tables1, table1, edits[1..], 0);
      } else {
        CacheFollowsTable(dec, tables1, table1, edits[1..]);
      }
    }
  }
}
