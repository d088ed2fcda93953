/**
 * Column encryption: processRow of internal/snapshot/snapshot.go writes marked
 * texts, decryptMap of internal/api/handlers.go reads them back.
 */
module Encryption {
  import opened Common
  import opened Source

  /**
   * json / unjson: one value to bytes and back.  encrypt gives the ciphertext
   * under the current key version (its nonce is the last argument) and may fail,
   * decrypt refuses any other version.  base64 / unbase64 render bytes as text.
   * Without an encryptor every column is stored as it is.
   */
  datatype Codec = Codec(
    json: Value -> Option<Bytes>,
    unjson: Bytes -> Option<Value>,
    text: Bytes -> string,
    encrypt: (Bytes, nat) -> Option<Bytes>,
    decrypt: (Bytes, string) -> Option<Bytes>,
    base64: Bytes -> string,
    unbase64: string -> Option<Bytes>,
    version: string,
    hasEncryptor: bool)

  ghost predicate RoundTrips(c: Codec) {
    && (forall b, nonce :: c.encrypt(b, nonce).Some? ==> c.decrypt(c.encrypt(b, nonce).value, c.version) == Some(b))
    && (forall b :: c.unbase64(c.base64(b)) == Some(b))
    && (forall v :: c.json(v).Some? ==> c.unjson(c.json(v).value).Some?)
  }

  const MARK := "enc:"

  // ------------------------------------------------------------------ writing

  function MarkedText(version: string, text: string): string {
    MARK + version + ":" + text
  }

  function Listed(encColumns: seq<string>): set<string> {
    set k | k in encColumns
  }

  /** The stored form of an encrypted column, if the value can be encoded and encrypted. */
  function Marked(c: Codec, v: Value, nonce: nat): Option<Value> {
    match c.json(v)
    case None => None
    case Some(bytes) =>
      match c.encrypt(bytes, nonce)
      case None => None
      case Some(cipher) => Some(Str(MarkedText(c.version, c.base64(cipher))))
  }

  predicate Encrypts(c: Codec, cols: set<string>, k: string, v: Value) {
    k in cols && v != Null && c.hasEncryptor
  }

  /** The stored form of one column. */
  function Processed(c: Codec, cols: set<string>, nonces: string -> nat, k: string, v: Value): Option<Value> {
    if Encrypts(c, cols, k, v) then Marked(c, v, nonces(k)) else Some(v)
  }

  /** Every column can be stored. */
  predicate CanProcess(c: Codec, cols: set<string>, nonces: string -> nat, row: Image) {
    forall k :: k in row ==> Processed(c, cols, nonces, k, row[k]).Some?
  }

  function ProcessedRow(c: Codec, cols: set<string>, nonces: string -> nat, row: Image): Image
    requires CanProcess(c, cols, nonces, row)
  {
    map k | k in row :: Processed(c, cols, nonces, k, row[k]).value
  }

  lemma {:induction false} NotAll(c: Codec, cols: set<string>, nonces: string -> nat, row: Image, k: string)
    requires k in row && Processed(c, cols, nonces, k, row[k]).None?
    ensures !CanProcess(c, cols, nonces, row)
  {
  }

  lemma {:induction false} AllProcessed(c: Codec, cols: set<string>, nonces: string -> nat, row: Image, out: Image)
    requires out.Keys == row.Keys
    requires forall k :: k in out ==> Processed(c, cols, nonces, k, row[k]) == Some(out[k])
    ensures CanProcess(c, cols, nonces, row) && out == ProcessedRow(c, cols, nonces, row)
  {
    forall k | k in row ensures Processed(c, cols, nonces, k, row[k]) == Some(out[k]) {
      assert k in out;
    }
  }

  /** The body of processRow's loop. */
  method ProcessValue(c: Codec, cols: set<string>, k: string, v: Value, nonce: nat) returns (r: Option<Value>)
    ensures r == if Encrypts(c, cols, k, v) then Marked(c, v, nonce) else Some(v)
  {
    if k in cols && v != Null && c.hasEncryptor {
      var bytes := c.json(v);
      if bytes.None? {
        return None;
      }
      var cipher := c.encrypt(bytes.value, nonce);
      if cipher.None? {
        return None;
      }
      return Some(Str(MARK + c.version + ":" + c.base64(cipher.value)));
    }
    return Some(v);
  }

  /** v is the marked ciphertext of the column's value. */
  ghost predicate IsCiphertext(c: Codec, plain: Value, nonce: nat, v: Value) {
    && c.json(plain).Some? && c.encrypt(c.json(plain).value, nonce).Some?
    && v == Str("enc:" + c.version + ":" + c.base64(c.encrypt(c.json(plain).value, nonce).value))
  }

  /**
   * out is the stored form of row: with an encryptor, every listed column that is
   * not null is its ciphertext, and any other column is what it was.
   */
  ghost predicate IsStoredForm(c: Codec, encColumns: seq<string>, nonces: string -> nat, row: Image, out: Image) {
    && out.Keys == row.Keys
    && (forall k :: k in row && k in encColumns && row[k] != Null && c.hasEncryptor ==>
          IsCiphertext(c, row[k], nonces(k), out[k]))
    && (forall k :: k in row && (k !in encColumns || row[k] == Null || !c.hasEncryptor) ==> out[k] == row[k])
  }

  /** Processing by the functions above is what it should be. */
  lemma {:induction false} ProcessedIsStored(c: Codec, encColumns: seq<string>, nonces: string -> nat, row: Image)
    requires CanProcess(c, Listed(encColumns), nonces, row)
    ensures IsStoredForm(c, encColumns, nonces, row, ProcessedRow(c, Listed(encColumns), nonces, row))
  {
    var cols := Listed(encColumns);
    forall k | k in row ensures Processed(c, cols, nonces, k, row[k]).Some? {
    }
  }

  /** A column that is to be encrypted and cannot be. */
  ghost predicate CannotStore(c: Codec, encColumns: seq<string>, nonces: string -> nat, row: Image, k: string) {
    && k in row && k in encColumns && row[k] != Null && c.hasEncryptor
    && (c.json(row[k]).None? || c.encrypt(c.json(row[k]).value, nonces(k)).None?)
  }

  lemma {:induction false} FailsOnColumn(c: Codec, encColumns: seq<string>, nonces: string -> nat, row: Image)
    requires !CanProcess(c, Listed(encColumns), nonces, row)
    ensures exists k :: CannotStore(c, encColumns, nonces, row, k)
  {
    var cols := Listed(encColumns);
    var k :| k in row && Processed(c, cols, nonces, k, row[k]).None?;
    assert CannotStore(c, encColumns, nonces, row, k);
  }

  lemma {:induction false} ColumnFails(c: Codec, encColumns: seq<string>, nonces: string -> nat, row: Image, k: string)
    requires CannotStore(c, encColumns, nonces, row, k)
    ensures !CanProcess(c, Listed(encColumns), nonces, row)
  {
    NotAll(c, Listed(encColumns), nonces, row, k);
  }

  /** processRow: the columns in any order, stopping at the first that cannot be stored. */
  method ProcessRow(c: Codec, encColumns: seq<string>, nonces: string -> nat, row: Image) returns (r: Option<Image>)
    ensures var cols := Listed(encColumns);
            r == if CanProcess(c, cols, nonces, row) then Some(ProcessedRow(c, cols, nonces, row)) else None
    ensures r.Some? ==> IsStoredForm(c, encColumns, nonces, row, r.value)
    ensures r.None? <==> exists k :: CannotStore(c, encColumns, nonces, row, k)
  {
    r := ProcessColumns(c, encColumns, nonces, row);
    if r.Some? {
      ProcessedIsStored(c, encColumns, nonces, row);
      if k :| CannotStore(c, encColumns, nonces, row, k) {
        ColumnFails(c, encColumns, nonces, row, k);
      }
    } else {
      FailsOnColumn(c, encColumns, nonces, row);
    }
  }

  method ProcessColumns(c: Codec, encColumns: seq<string>, nonces: string -> nat, row: Image)
    returns (r: Option<Image>)
    ensures var cols := Listed(encColumns);
            r == if CanProcess(c, cols, nonces, row) then Some(ProcessedRow(c, cols, nonces, row)) else None
  {
    var cols := Listed(encColumns);
    var out: Image := map[];
    var todo := row.Keys;
    while todo != {}
      invariant todo <= row.Keys && out.Keys == row.Keys - todo
      invariant forall k :: k in out ==> Processed(c, cols, nonces, k, row[k]) == Some(out[k])
      decreases |todo|
    {
      var k :| k in todo;
      var stored := ProcessValue(c, cols, k, row[k], nonces(k));
      if stored.None? {
        NotAll(c, cols, nonces, row, k);
        return None;
      }
      out := out[k := stored.value];
      todo := todo - {k};
    }
    AllProcessed(c, cols, nonces, row, out);
    return Some(out);
  }

  // ------------------------------------------------------------------ reading

  /** Where the first colon of s is, or the length of s. */
  function Colon(s: string): (i: nat)
    ensures i <= |s|
    ensures i < |s| ==> s[i] == ':'
    ensures forall j :: 0 <= j < i ==> s[j] != ':'
  {
    if s == "" || s[0] == ':' then 0 else 1 + Colon(s[1..])
  }

  /** The version and text of a marked string, split at its first two colons. */
  function Split(s: string): Option<(string, string)> {
    if !(MARK <= s) then None
    else
      var rest := s[4..];
      var i := Colon(rest);
      if i == |rest| then None else Some((rest[..i], rest[i + 1..]))
  }

  /** What decryptMap replaces one value by; anything it cannot decrypt stays. */
  function Opened(c: Codec, v: Value): Value {
    if !v.Str? then v
    else
      match Split(v.text)
      case None => v
      case Some((version, text)) =>
        match c.unbase64(text)
        case None => v
        case Some(cipher) =>
          match c.decrypt(cipher, version)
          case None => v
          case Some(plain) =>
            match c.unjson(plain)
            case Some(parsed) => parsed
            case None => Str(c.text(plain))
  }

  function OpenedRow(c: Codec, data: Image): Image {
    map k | k in data :: Opened(c, data[k])
  }

  /** decryptMap: entries rewritten in place, in any order. */
  method DecryptMap(c: Codec, data: Image) returns (out: Image)
    ensures out == OpenedRow(c, data)
  {
    out := data;
    var todo := data.Keys;
    while todo != {}
      invariant todo <= data.Keys && out.Keys == data.Keys
      invariant forall k :: k in data ==> out[k] == if k in todo then data[k] else Opened(c, data[k])
      decreases |todo|
    {
      var k :| k in todo;
      var v := OpenValue(c, out[k]);
      out := out[k := v];
      todo := todo - {k};
    }
  }

  method OpenValue(c: Codec, v: Value) returns (r: Value)
    ensures r == Opened(c, v)
  {
    if !v.Str? || !(MARK <= v.text) {
      return v;
    }
    var parts := Split(v.text);
    if parts.None? {
      return v;
    }
    var cipher := c.unbase64(parts.value.1);
    if cipher.None? {
      return v;
    }
    var plain := c.decrypt(cipher.value, parts.value.0);
    if plain.None? {
      return v;
    }
    var parsed := c.unjson(plain.value);
    r := if parsed.Some? then parsed.value else Str(c.text(plain.value));
  }

  // --------------------------------------------------------------- round trip

  lemma {:induction false} ColonAt(s: string, t: string)
    requires ':' !in s
    ensures Colon(s + ":" + t) == |s|
  {
    var all := s + ":" + t;
    assert all[|s|] == ':';
    forall j | 0 <= j < |s| ensures all[j] != ':' {
      assert all[j] == s[j];
    }
  }

  /** A string splits into this version and text exactly if it is their marked form and the version has no colon. */
  lemma {:induction false} SplitIff(s: string, version: string, text: string)
    ensures Split(s) == Some((version, text)) <==> s == MarkedText(version, text) && ':' !in version
  {
    if s == MarkedText(version, text) {
      MarkedSplits(version, text);
    }
    if Split(s) == Some((version, text)) {
      var rest := s[4..];
      var i := Colon(rest);
      assert rest == rest[..i] + [rest[i]] + rest[i + 1..];
      assert s == s[..4] + rest;
    }
  }

  lemma {:induction false} MarkedSplits(version: string, text: string)
    ensures Split(MarkedText(version, text)) == Some((version, text)) <==> ':' !in version
  {
    var s := MarkedText(version, text);
    var rest := s[4..];
    assert rest == version + ":" + text;
    if ':' !in version {
      ColonAt(version, text);
      assert rest[..|version|] == version && rest[|version| + 1..] == text;
    } else {
      var i := Colon(rest);
      var p :| 0 <= p < |version| && version[p] == ':';
      assert rest[p] == ':';
      assert i <= p;
    }
  }

  /** What a value becomes by going through JSON and back. */
  function Normal(c: Codec, v: Value): Value {
    match c.json(v)
    case None => v
    case Some(bytes) => match c.unjson(bytes) case None => v case Some(w) => w
  }

  /** An encrypted column comes back as it would have through JSON. */
  lemma {:induction false} MarkedOpens(c: Codec, v: Value, nonce: nat)
    requires RoundTrips(c) && ':' !in c.version && Marked(c, v, nonce).Some?
    ensures Opened(c, Marked(c, v, nonce).value) == Normal(c, v)
  {
    MarkedSplits(c.version, c.base64(c.encrypt(c.json(v).value, nonce).value));
  }

  /** With a colon in the version, the reader takes another version from the text and leaves it encrypted. */
  lemma {:induction false} ColonInVersionStays(c: Codec, v: Value, nonce: nat)
    requires ':' in c.version && Marked(c, v, nonce).Some? && RefusesOthers(c)
    ensures Opened(c, Marked(c, v, nonce).value) == Marked(c, v, nonce).value
  {
    var text := c.base64(c.encrypt(c.json(v).value, nonce).value);
    MarkedSplits(c.version, text);
    var split := Split(MarkedText(c.version, text));
    if split.Some? && split.value.0 == c.version {
      SplitIff(MarkedText(c.version, text), c.version, split.value.1);
    }
  }

  /** Another key version is refused. */
  ghost predicate RefusesOthers(c: Codec) {
    forall b, version :: version != c.version ==> c.decrypt(b, version) == None
  }

  /** What the text of a marked string of the current version is read as, if it decodes and decrypts. */
  function Read(c: Codec, text: string): Option<Value> {
    match c.unbase64(text)
    case None => None
    case Some(cipher) =>
      match c.decrypt(cipher, c.version)
      case None => None
      case Some(plain) => Some(match c.unjson(plain) case Some(v) => v case None => Str(c.text(plain)))
  }

  /** A text that is a marked string of the current version and is read as something else. */
  ghost predicate Lookalike(c: Codec, v: Value) {
    v.Str? && exists text ::
      v.text == MarkedText(c.version, text) && Read(c, text).Some? && Read(c, text).value != v
  }

  /** Exactly the lookalikes are changed; everything else stays as it is. */
  lemma {:induction false} StaysIff(c: Codec, v: Value)
    requires RefusesOthers(c) && ':' !in c.version
    ensures Opened(c, v) == v <==> !Lookalike(c, v)
  {
    if v.Str? {
      forall text ensures v.text == MarkedText(c.version, text) <==> Split(v.text) == Some((c.version, text)) {
        SplitIff(v.text, c.version, text);
      }
      if Split(v.text).Some? {
        var (version, text) := Split(v.text).value;
        SplitIff(v.text, version, text);
      }
    }
  }

  /** What the row comes back as: encrypted columns as JSON represents them, the others as they were. */
  function Restored(c: Codec, encColumns: seq<string>, row: Image): Image {
    map k | k in row ::
      if k in encColumns && row[k] != Null && c.hasEncryptor then Normal(c, row[k]) else row[k]
  }

  /**
   * Decrypting a stored row gives every encrypted column its value back, as JSON
   * represents it, and leaves every other column as it was, exactly if no column
   * left unencrypted holds a lookalike.
   */
  lemma {:induction false} RowRoundTrip(c: Codec, encColumns: seq<string>, nonces: string -> nat, row: Image,
                                        out: Image)
    requires RoundTrips(c) && RefusesOthers(c) && ':' !in c.version && IsStoredForm(c, encColumns, nonces, row, out)
    ensures OpenedRow(c, out) == Restored(c, encColumns, row) <==>
            forall k :: k in row && (k !in encColumns || row[k] == Null || !c.hasEncryptor) ==> !Lookalike(c, row[k])
  {
    var plainRow, wanted := OpenedRow(c, out), Restored(c, encColumns, row);
    forall k | k in row
      ensures plainRow[k] == wanted[k] <==>
              ((k !in encColumns || row[k] == Null || !c.hasEncryptor) ==> !Lookalike(c, row[k]))
    {
      if k in encColumns && row[k] != Null && c.hasEncryptor {
        assert out[k] == Marked(c, row[k], nonces(k)).value;
        MarkedOpens(c, row[k], nonces(k));
      } else {
        StaysIff(c, row[k]);
      }
    }
    assert plainRow.Keys == wanted.Keys;
  }

  /** A marked text whose plaintext is not JSON comes back as that plaintext. */
  lemma {:induction false} RawTextOpens(c: Codec, text: string, cipher: Bytes, plain: Bytes)
    requires ':' !in c.version && c.unbase64(text) == Some(cipher) && c.decrypt(cipher, c.version) == Some(plain)
    requires c.unjson(plain) == None
    ensures Opened(c, Str("enc:" + c.version + ":" + text)) == Str(c.text(plain))
  {
    MarkedSplits(c.version, text);
    assert "enc:" + c.version + ":" + text == MarkedText(c.version, text);
  }

  /**
   * There are lookalikes: the marked encryption of a value that JSON does not
   * read as a text, stored in a column that is not encrypted, comes back as that
   * value and not as the text it was.
   */
  lemma {:induction false} LookalikeIsOpened(c: Codec, k: string, v: Value, nonce: nat, nonces: string -> nat)
    requires RoundTrips(c) && ':' !in c.version && Marked(c, v, nonce).Some? && !Normal(c, v).Str?
    ensures var row := map[k := Marked(c, v, nonce).value];
            && CanProcess(c, {}, nonces, row) && ProcessedRow(c, {}, nonces, row) == row
            && OpenedRow(c, row) == map[k := Normal(c, v)] && OpenedRow(c, row) != row
  {
    MarkedOpens(c, v, nonce);
    assert map[k := Normal(c, v)][k] != Marked(c, v, nonce).value;
  }
}
