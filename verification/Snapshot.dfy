/** The record made of a row change: internal/snapshot/snapshot.go. */
module Snapshot {
  import opened Common
  import opened Records
  import opened Source
  import opened Config
  import opened Attribution
  import opened Encryption

  /**
   * What records are built with: the encryption of columns, JSON for whole
   * images and back, the primary key and the schema version of a change.  What
   * is drawn at random for a record decides the nonces of its columns, and where
   * the primary key is looked for when no column has one of the usual names.
   */
  datatype Builder = Builder(
    codec: Codec,
    imageJson: Image -> Option<Bytes>,
    imageUnjson: Bytes -> Option<Image>,
    nonce: (nat, bool, string) -> nat,
    primaryKey: (RowChange, nat) -> Option<Bytes>,
    schemaVersion: RowChange -> string)

  /** The nonces of the columns of the image before, or of the one after. */
  function NoncesOf(b: Builder, draw: nat, isBefore: bool): string -> nat {
    k => b.nonce(draw, isBefore, k)
  }

  function ActionName(a: EventType): string {
    match a
    case Insert => "INSERT"
    case Update => "UPDATE"
    case Delete => "DELETE"
    case DDL => "DDL"
    case Unset => ""
  }

  predicate KeepsBefore(change: RowChange) {
    change.before.Some? && (change.action == Update || change.action == Delete)
  }

  predicate KeepsAfter(change: RowChange) {
    change.after.Some? && (change.action == Insert || change.action == Update)
  }

  /** An image as it is stored, if it can be. */
  function ImageBytes(b: Builder, encColumns: seq<string>, nonces: string -> nat, image: Image): Option<Bytes> {
    if CanProcess(b.codec, Listed(encColumns), nonces, image)
    then b.imageJson(ProcessedRow(b.codec, Listed(encColumns), nonces, image))
    else None
  }

  /** BuildRecord, without the id and the stamps. */
  function BodyOf(b: Builder, change: RowChange, cfg: TableConfig, actor: Actor, txID: string, committedAt: nat,
                  draw: nat): Option<RecordBody>
  {
    var before := if KeepsBefore(change)
                  then ImageBytes(b, cfg.encryptedColumns, NoncesOf(b, draw, true), change.before.value) else None;
    var after := if KeepsAfter(change)
                 then ImageBytes(b, cfg.encryptedColumns, NoncesOf(b, draw, false), change.after.value) else None;
    var key := b.primaryKey(change, draw);
    if (KeepsBefore(change) && before.None?) || (KeepsAfter(change) && after.None?) || key.None? then None
    else
      Some(RecordBody(change.table, key.value, ActionName(change.action), before, after, actor.userID,
                      actor.actorType, txID, b.schemaVersion(change), committedAt))
  }

  // --------------------------------------------------------- what a record says

  /** bytes hold the stored form of the image. */
  ghost predicate HoldsImage(b: Builder, encColumns: seq<string>, image: Image, bytes: Bytes) {
    exists nonces: string -> nat, stored: Image ::
      IsStoredForm(b.codec, encColumns, nonces, image, stored) && b.imageJson(stored) == Some(bytes)
  }

  /** The name an action is stored under. */
  ghost predicate IsNameOf(a: EventType, name: string) {
    && (a == Insert <==> name == "INSERT") && (a == Update <==> name == "UPDATE")
    && (a == Delete <==> name == "DELETE") && (a == DDL <==> name == "DDL")
  }

  /**
   * The record says what the change was: its table, action, transaction and
   * actor; the image before exactly of an update or delete that has one, and the
   * image after exactly of an insert or update that has one.
   */
  ghost predicate Tells(b: Builder, change: RowChange, cfg: TableConfig, actor: Actor, txID: string, committedAt: nat,
                        body: RecordBody) {
    && body.tableName == change.table && IsNameOf(change.action, body.eventType)
    && body.transactionID == txID && body.committedAt == committedAt
    && body.actorUserID == actor.userID && body.actorType == actor.actorType
    && body.schemaVersion == b.schemaVersion(change)
    && (exists draw: nat :: b.primaryKey(change, draw) == Some(body.primaryKey))
    && (body.beforeImage.Some? <==> change.before.Some? && (change.action == Update || change.action == Delete))
    && (body.afterImage.Some? <==> change.after.Some? && (change.action == Insert || change.action == Update))
    && (body.beforeImage.Some? ==>
          HoldsImage(b, cfg.encryptedColumns, change.before.value, body.beforeImage.value))
    && (body.afterImage.Some? ==>
          HoldsImage(b, cfg.encryptedColumns, change.after.value, body.afterImage.value))
  }

  lemma {:induction false} ImageBytesHold(b: Builder, encColumns: seq<string>, nonces: string -> nat, image: Image)
    requires ImageBytes(b, encColumns, nonces, image).Some?
    ensures HoldsImage(b, encColumns, image, ImageBytes(b, encColumns, nonces, image).value)
  {
    ProcessedIsStored(b.codec, encColumns, nonces, image);
  }

  lemma {:induction false} BodyTells(b: Builder, change: RowChange, cfg: TableConfig, actor: Actor, txID: string,
                                     committedAt: nat, draw: nat)
    ensures var body := BodyOf(b, change, cfg, actor, txID, committedAt, draw);
            body.Some? ==> Tells(b, change, cfg, actor, txID, committedAt, body.value)
  {
    var body := BodyOf(b, change, cfg, actor, txID, committedAt, draw);
    if body.Some? {
      assert b.primaryKey(change, draw) == Some(body.value.primaryKey);
      if KeepsBefore(change) {
        ImageBytesHold(b, cfg.encryptedColumns, NoncesOf(b, draw, true), change.before.value);
      }
      if KeepsAfter(change) {
        ImageBytesHold(b, cfg.encryptedColumns, NoncesOf(b, draw, false), change.after.value);
      }
    }
  }

  // -------------------------------------------------------------------- the code

  method EncodeImage(b: Builder, encColumns: seq<string>, nonces: string -> nat, image: Image)
    returns (r: Option<Bytes>)
    ensures r == ImageBytes(b, encColumns, nonces, image)
  {
    var stored := ProcessRow(b.codec, encColumns, nonces, image);
    if stored.None? {
      return None;
    }
    return b.imageJson(stored.value);
  }

  method BuildRecord(b: Builder, change: RowChange, cfg: TableConfig, actor: Actor, txID: string, committedAt: nat,
                     draw: nat) returns (r: Option<RecordBody>)
    ensures r == BodyOf(b, change, cfg, actor, txID, committedAt, draw)
    ensures r.Some? ==> Tells(b, change, cfg, actor, txID, committedAt, r.value)
  {
    BodyTells(b, change, cfg, actor, txID, committedAt, draw);
    var before, after := None, None;
    if change.before.Some? && (change.action == Update || change.action == Delete) {
      before := EncodeImage(b, cfg.encryptedColumns, NoncesOf(b, draw, true), change.before.value);
      if before.None? {
        return None;
      }
    }
    if change.after.Some? && (change.action == Insert || change.action == Update) {
      after := EncodeImage(b, cfg.encryptedColumns, NoncesOf(b, draw, false), change.after.value);
      if after.None? {
        return None;
      }
    }
    var key := b.primaryKey(change, draw);
    if key.None? {
      return None;
    }
    return Some(RecordBody(change.table, key.value, ActionName(change.action), before, after, actor.userID,
                           actor.actorType, txID, b.schemaVersion(change), committedAt));
  }

  // ------------------------------------------------------------------ reading back

  /** The image with every value as JSON represents it. */
  function AsJson(c: Codec, image: Image): Image {
    map k | k in image :: Normal(c, image[k])
  }

  /** An image comes back from JSON with every value as JSON represents it, and texts as they were. */
  ghost predicate ImagesReadBack(b: Builder) {
    && (forall image :: b.imageJson(image).Some? ==>
          b.imageUnjson(b.imageJson(image).value) == Some(AsJson(b.codec, image)))
    && forall text :: Normal(b.codec, Str(text)) == Str(text)
  }

  /** What a stored image reads as once its columns are opened. */
  function Shown(b: Builder, bytes: Bytes): Option<Image> {
    match b.imageUnjson(bytes)
    case None => None
    case Some(image) => Some(OpenedRow(b.codec, image))
  }

  /** The column is left unencrypted and, as JSON represents it, is a lookalike. */
  ghost predicate IsTaken(c: Codec, encColumns: seq<string>, image: Image, k: string)
    requires k in image
  {
    (k !in encColumns || image[k] == Null || !c.hasEncryptor) && Lookalike(c, Normal(c, image[k]))
  }

  lemma {:induction false} ColumnRoundTrip(c: Codec, encColumns: seq<string>, nonces: string -> nat, image: Image,
                                           stored: Image, k: string)
    requires RoundTrips(c) && RefusesOthers(c) && ':' !in c.version
    requires forall text :: Normal(c, Str(text)) == Str(text)
    requires IsStoredForm(c, encColumns, nonces, image, stored) && k in image
    ensures Opened(c, Normal(c, stored[k])) == Normal(c, image[k]) <==> !IsTaken(c, encColumns, image, k)
  {
    if k in encColumns && image[k] != Null && c.hasEncryptor {
      assert stored[k] == Marked(c, image[k], nonces(k)).value;
      MarkedOpens(c, image[k], nonces(k));
    } else {
      StaysIff(c, Normal(c, image[k]));
    }
  }

  /** Two images with the same columns are equal exactly if each column is. */
  lemma {:induction false} SameIff(x: Image, y: Image)
    requires x.Keys == y.Keys
    ensures x == y <==> forall k :: k in x ==> x[k] == y[k]
  {
  }

  /**
   * A stored image, read and opened, is the image it was made of, every value as
   * JSON represents it, exactly if no column left unencrypted holds a lookalike.
   */
  lemma {:induction false} ImageRoundTrip(b: Builder, encColumns: seq<string>, image: Image, bytes: Bytes)
    requires RoundTrips(b.codec) && RefusesOthers(b.codec) && ':' !in b.codec.version && ImagesReadBack(b)
    requires HoldsImage(b, encColumns, image, bytes)
    ensures Shown(b, bytes) == Some(AsJson(b.codec, image)) <==>
            forall k :: k in image ==> !IsTaken(b.codec, encColumns, image, k)
  {
    var c := b.codec;
    var nonces: string -> nat, stored: Image :|
      IsStoredForm(c, encColumns, nonces, image, stored) && b.imageJson(stored) == Some(bytes);
    var shown, wanted := OpenedRow(c, AsJson(c, stored)), AsJson(c, image);
    assert Shown(b, bytes) == Some(shown);
    forall k | k in image ensures shown[k] == wanted[k] <==> !IsTaken(c, encColumns, image, k) {
      ColumnRoundTrip(c, encColumns, nonces, image, stored, k);
    }
    SameIff(shown, wanted);
  }
}
