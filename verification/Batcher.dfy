/**
 * The batcher of internal/batch/batcher.go: a buffer of records with two locked
 * regions, append and close.
 */
module Batching {
  import opened Common
  import opened Merkle
  import opened Records
  import opened Store
  import opened Archive

  // ------------------------------------------------ the two regions, on values

  datatype BatcherState = BatcherState(
    batchID: string,
    startedAt: nat,
    records: seq<Record>,
    lastPosition: Position,
    isBootstrap: bool,
    bootstrapTable: string)

  /** What one run of the close region meets: the clock, the signer, the store, the archive, a new id. */
  datatype CloseIo = CloseIo(
    closedAt: nat,
    keyVersion: string,
    signOk: bool,
    storeOk: bool,
    checkpoint: WriteIo,
    nextBatchID: string,
    restartedAt: nat)

  /** Everything the close region changes. */
  datatype World = World(buffer: BatcherState, st: StoreState, objects: map<ObjectKey, Bytes>)

  function Append(b: BatcherState, id: string, body: RecordBody, pos: Position): BatcherState {
    b.(records := b.records + [Record(id, b.batchID, body, |b.records|)], lastPosition := pos)
  }

  function Fresh(batchID: string, startedAt: nat, pos: Position): BatcherState {
    BatcherState(batchID, startedAt, [], pos, false, "")
  }

  /** The batch row written for the buffered records. */
  function BatchFor(env: Env, b: BatcherState, io: CloseIo): Batch
    requires AllEncode(env, b.records)
  {
    var root := RootOf(env, b.records);
    Batch(b.batchID, b.startedAt, io.closedAt, |b.records|, root, env.sign(io.keyVersion, root), io.keyVersion,
          b.lastPosition, "signed", Some(PathOf(CheckpointObject(b.batchID))), b.isBootstrap,
          if b.bootstrapTable == "" then None else Some(b.bootstrapTable))
  }

  /** The close gets as far as writing the batch to the store. */
  predicate Persists(env: Env, b: BatcherState, io: CloseIo) {
    b.records != [] && AllEncode(env, b.records) && io.signOk && io.storeOk
  }

  /** The close returns success with a batch closed. */
  predicate Closes(env: Env, w: World, io: CloseIo) {
    Persists(env, w.buffer, io) && WriteOk(w.objects, CheckpointObject(w.buffer.batchID), io.checkpoint)
  }

  function CloseOnce(env: Env, w: World, io: CloseIo): World {
    if w.buffer.records == [] then w.(buffer := w.buffer.(startedAt := io.restartedAt))
    else if !Persists(env, w.buffer, io) then w
    else
      var batch := BatchFor(env, w.buffer, io);
      World(
        if Closes(env, w, io) then Fresh(io.nextBatchID, io.restartedAt, w.buffer.lastPosition) else w.buffer,
        WithBatch(w.st, batch, w.buffer.records),
        Written(w.objects, CheckpointObject(batch.id), env.checkpointJson(batch), io.checkpoint))
  }

  datatype CloseError = ErrLeafHash | ErrSign | ErrStore | ErrCheckpoint

  /** What the close returns. */
  function CloseOutcome(env: Env, w: World, io: CloseIo): Result<(), CloseError> {
    if w.buffer.records == [] then Ok(())
    else if !AllEncode(env, w.buffer.records) then Err(ErrLeafHash)
    else if !io.signOk then Err(ErrSign)
    else if !io.storeOk then Err(ErrStore)
    else if !WriteOk(w.objects, CheckpointObject(w.buffer.batchID), io.checkpoint) then Err(ErrCheckpoint)
    else Ok(())
  }

  /** One call of AddRecord, with what its close meets if it comes to one. */
  datatype AddCall = AddCall(id: string, body: RecordBody, pos: Position, io: CloseIo)

  function Appended(w: World, c: AddCall): World {
    w.(buffer := Append(w.buffer, c.id, c.body, c.pos))
  }

  /** The append fills the batch, and so triggers a close. */
  predicate Fills(maxEvents: nat, w: World, c: AddCall) {
    |Appended(w, c).buffer.records| >= maxEvents
  }

  function AddOnce(env: Env, maxEvents: nat, w: World, c: AddCall): World {
    if Fills(maxEvents, w, c) then CloseOnce(env, Appended(w, c), c.io) else Appended(w, c)
  }

  function AddOutcome(env: Env, maxEvents: nat, w: World, c: AddCall): Result<(), CloseError> {
    if Fills(maxEvents, w, c) then CloseOutcome(env, Appended(w, c), c.io) else Ok(())
  }

  /** The world after a list of calls, whatever they returned. */
  function AddAll(env: Env, maxEvents: nat, w: World, calls: seq<AddCall>): World {
    if calls == [] then w
    else AddOnce(env, maxEvents, AddAll(env, maxEvents, w, calls[..|calls| - 1]), calls[|calls| - 1])
  }

  /** Call k, after those before it, does not fail. */
  predicate Passes(env: Env, maxEvents: nat, w: World, calls: seq<AddCall>, k: nat)
    requires k < |calls|
  {
    AddOutcome(env, maxEvents, AddAll(env, maxEvents, w, calls[..k]), calls[k]).Ok?
  }

  lemma {:induction false} AddAllNext(env: Env, maxEvents: nat, w: World, calls: seq<AddCall>, k: nat)
    requires k < |calls|
    ensures AddAll(env, maxEvents, w, calls[..k + 1]) ==
            AddOnce(env, maxEvents, AddAll(env, maxEvents, w, calls[..k]), calls[k])
  {
    assert calls[..k + 1][..k] == calls[..k];
  }

  /** An addition fails exactly if it fills the batch and the close does not succeed. */
  lemma {:induction false} AddFailsIff(env: Env, maxEvents: nat, w: World, c: AddCall)
    ensures AddOutcome(env, maxEvents, w, c).Err? <==> Fills(maxEvents, w, c) && !Closes(env, Appended(w, c), c.io)
  {
  }

  // --------------------------------------------------------------- the class

  /** A *store.Record: the batcher stamps the object it is given. */
  class RecordRef {
    const id: string
    const body: RecordBody
    var batchID: string
    var leafIndex: nat

    constructor (id: string, body: RecordBody, leafIndex: nat)
      ensures this.id == id && this.body == body && this.leafIndex == leafIndex
    {
      this.id, this.body, this.batchID, this.leafIndex := id, body, "", leafIndex;
    }

    function Value(): Record
      reads this
    {
      Record(id, batchID, body, leafIndex)
    }
  }

  function Values(refs: seq<RecordRef>): (rs: seq<Record>)
    reads refs
    ensures |rs| == |refs| && forall i :: 0 <= i < |refs| ==> rs[i] == refs[i].Value()
  {
    seq(|refs|, i requires 0 <= i < |refs| reads refs => refs[i].Value())
  }

  class Batcher {
    const env: Env
    const maxEvents: nat
    const store: MemoryStore
    const archive: LocalDirArchiveStore

    var currentBatchID: string
    var startedAt: nat
    var records: seq<RecordRef>
    var lastPosition: Position
    var isBootstrap: bool
    var bootstrapTable: string

    // every record object handed to AddRecord, and those of each closed batch, in order
    ghost var added: seq<RecordRef>
    ghost var closed: seq<seq<RecordRef>>

    ghost function Snapshot(): World
      reads this, records, store, archive
    {
      World(Buffer(), store.State(), archive.objects)
    }

    ghost function Buffer(): BatcherState
      reads this, records
    {
      BatcherState(currentBatchID, startedAt, Values(records), lastPosition, isBootstrap, bootstrapTable)
    }

    /** The closed batches in order, followed by the open buffer, are the objects added, in order. */
    ghost predicate Valid()
      reads this, store
    {
      && store.Valid()
      && added == Flatten(closed) + records
      && (forall i :: 0 <= i < |closed| ==> closed[i] != [])
    }

    constructor (env: Env, maxEvents: int, store: MemoryStore, archive: LocalDirArchiveStore,
                 batchID: string, now: nat)
      requires store.Valid()
      ensures Valid() && this.env == env && this.store == store && this.archive == archive
      ensures this.maxEvents == if maxEvents <= 0 then 5000 else maxEvents
      ensures Buffer() == Fresh(batchID, now, Position("", 0)) && added == [] && closed == []
    {
      this.env, this.store, this.archive := env, store, archive;
      this.maxEvents := if maxEvents <= 0 then 5000 else maxEvents;
      currentBatchID, startedAt, records := batchID, now, [];
      lastPosition, isBootstrap, bootstrapTable := Position("", 0), false, "";
      added, closed := [], [];
    }

    method SetBootstrapMode(isBootstrap: bool, tableName: string)
      requires Valid()
      modifies this`isBootstrap, this`bootstrapTable
      ensures Valid() && this.isBootstrap == isBootstrap && bootstrapTable == tableName
    {
      this.isBootstrap, bootstrapTable := isBootstrap, tableName;
    }

    /** The first locked region of AddRecord. */
    method AppendRecord(record: RecordRef, pos: Position) returns (shouldClose: bool)
      requires Valid()
      modifies this`records, this`lastPosition, this`added, record
      ensures Valid() && added == old(added) + [record] && records == old(records) + [record] && lastPosition == pos
      ensures record.batchID == currentBatchID && record.leafIndex == |old(records)|
      ensures record !in old(records) ==> Buffer() == Append(old(Buffer()), record.id, record.body, pos)
      ensures shouldClose <==> |records| >= maxEvents
    {
      record.batchID := currentBatchID;
      record.leafIndex := |records|;
      records := records + [record];
      lastPosition := pos;
      added := added + [record];
      Assoc(Flatten(closed), old(records), [record]);
      shouldClose := |records| >= maxEvents;
    }

    /** Step 1 of the close: the leaf hash of every buffered record, or nothing if one does not encode. */
    method HashRecords() returns (r: Option<seq<Bytes>>)
      ensures r == if AllEncode(env, Values(records)) then Some(Leaves(env, Values(records))) else None
    {
      var leafHashes: seq<Bytes> := [];
      for i := 0 to |records|
        invariant forall j :: 0 <= j < i ==> env.leafJson(records[j].Value()).Some?
        invariant |leafHashes| == i
        invariant forall j :: 0 <= j < i ==> leafHashes[j] == HashLeaf(env.H, env.leafJson(records[j].Value()).value)
      {
        var payload := env.leafJson(records[i].Value());
        if payload.None? {
          assert env.leafJson(Values(records)[i]).None?;
          return None;
        }
        leafHashes := leafHashes + [HashLeaf(env.H, payload.value)];
      }
      assert AllEncode(env, Values(records)) && leafHashes == Leaves(env, Values(records));
      return Some(leafHashes);
    }

    /** The row of the open batch: what it was opened with, the buffer's root signed, and where its checkpoint goes. */
    ghost predicate IsRowOf(row: Batch, io: CloseIo)
      reads this, records
    {
      && AllEncode(env, Values(records))
      && row.id == currentBatchID && row.startedAt == startedAt && row.closedAt == io.closedAt
      && row.eventCount == |records| && row.merkleRoot == RfcTreeHash(env.H, LeafData(env, Values(records)))
      && row.signature == env.sign(io.keyVersion, row.merkleRoot) && row.keyVersion == io.keyVersion
      && row.position == lastPosition && row.status == "signed"
      && row.wormObjectKey == Some("checkpoints/" + currentBatchID + ".json")
      && row.isBootstrap == isBootstrap
      && row.bootstrapTable == if bootstrapTable == "" then None else Some(bootstrapTable)
    }

    /** Steps 1 and 2: build the tree and sign its root. */
    method PrepareBatch(io: CloseIo) returns (r: Result<Batch, CloseError>)
      ensures r == if !AllEncode(env, Values(records)) then Err(ErrLeafHash)
                   else if !io.signOk then Err(ErrSign)
                   else Ok(BatchFor(env, Buffer(), io))
      ensures r.Ok? ==> IsRowOf(r.value, io)
    {
      var leafHashes := HashRecords();
      if leafHashes.None? {
        return Err(ErrLeafHash);
      }
      var tree := BuildTree(env.H, leafHashes.value);
      if !io.signOk {
        return Err(ErrSign);
      }
      var sig := env.sign(io.keyVersion, tree.root);
      TreeHashIsRfc(env.H, LeafData(env, Values(records)));
      return Ok(Batch(currentBatchID, startedAt, io.closedAt, |records|, tree.root, sig, io.keyVersion, lastPosition,
                      "signed", Some(PathOf(CheckpointObject(currentBatchID))), isBootstrap,
                      if bootstrapTable == "" then None else Some(bootstrapTable)));
    }

    /** Steps 3 and 4: the store, then the checkpoint object. */
    method PersistBatch(batch: Batch, io: CloseIo) returns (r: Result<(), CloseError>)
      requires store.Valid() && batch.id == currentBatchID
      modifies store, archive
      ensures store.Valid()
      ensures store.State() == if io.storeOk then WithBatch(old(store.State()), batch, Values(records))
                               else old(store.State())
      ensures archive.objects == if io.storeOk
                                 then Written(old(archive.objects), CheckpointObject(batch.id),
                                              env.checkpointJson(batch), io.checkpoint)
                                 else old(archive.objects)
      ensures r == if !io.storeOk then Err(ErrStore)
                   else if !WriteOk(old(archive.objects), CheckpointObject(batch.id), io.checkpoint)
                   then Err(ErrCheckpoint) else Ok(())
    {
      if !io.storeOk {
        return Err(ErrStore);
      }
      store.CreateBatch(batch, Values(records));
      var put := archive.PutCheckpoint(batch.id, env.checkpointJson(batch), io.checkpoint);
      if put.Err? {
        return Err(ErrCheckpoint);
      }
      return Ok(());
    }

    /** A new, empty batch is open, and the bootstrap flag is off. */
    ghost predicate IsReset(io: CloseIo)
      reads this
    {
      && currentBatchID == io.nextBatchID && startedAt == io.restartedAt && records == []
      && !isBootstrap && bootstrapTable == ""
    }

    method ResetForNextBatch(io: CloseIo)
      requires Valid() && records != []
      modifies this
      ensures Valid() && added == old(added) && closed == old(closed) + [old(records)]
      ensures Buffer() == Fresh(io.nextBatchID, io.restartedAt, old(lastPosition)) && lastPosition == old(lastPosition)
      ensures IsReset(io)
    {
      FlattenSnoc(closed, records);
      closed := closed + [records];
      currentBatchID, startedAt, records := io.nextBatchID, io.restartedAt, [];
      isBootstrap, bootstrapTable := false, "";
    }

    ghost predicate IsUntouched(id: string, start: nat, flag: bool, table: string)
      reads this
    {
      currentBatchID == id && startedAt == start && isBootstrap == flag && bootstrapTable == table
    }

    /** Steps 3 and 4 and the reset, for a batch prepared from the buffer. */
    method CompleteBatch(batch: Batch, io: CloseIo) returns (r: Result<(), CloseError>)
      requires Valid() && records != [] && AllEncode(env, Values(records)) && io.signOk
      requires batch == BatchFor(env, Buffer(), io)
      modifies this, store, archive
      ensures Valid() && added == old(added) && lastPosition == old(lastPosition)
      ensures Snapshot() == CloseOnce(env, old(Snapshot()), io)
      ensures r == CloseOutcome(env, old(Snapshot()), io)
      ensures records == if r.Ok? then [] else old(records)
      ensures closed == old(closed) + if r.Ok? then [old(records)] else []
      ensures r.Ok? ==> IsReset(io) && batch.id in store.batches && store.batches[batch.id] == batch
      ensures r.Err? ==> IsUntouched(old(currentBatchID), old(startedAt), old(isBootstrap), old(bootstrapTable))
    {
      r := PersistBatch(batch, io);
      if r.Ok? {
        ResetForNextBatch(io);
      }
    }

    /** The second locked region; the timer, Flush and Close run this region too. */
    method CloseCurrentBatch(io: CloseIo) returns (r: Result<(), CloseError>)
      requires Valid()
      modifies this, store, archive
      ensures Valid() && added == old(added)
      ensures Snapshot() == CloseOnce(env, old(Snapshot()), io)
      ensures r == CloseOutcome(env, old(Snapshot()), io)
      ensures r.Err? ==> records == old(records)
      ensures r.Ok? ==> records == []
      ensures lastPosition == old(lastPosition)
      ensures closed == old(closed) + if Closes(env, old(Snapshot()), io) then [old(records)] else []
      ensures old(records) != [] && r.Ok? ==>
                IsReset(io) && exists row :: old(IsRowOf(row, io)) && row.id in store.batches &&
                                             store.batches[row.id] == row
      ensures old(records) == [] ==>
                IsUntouched(old(currentBatchID), io.restartedAt, old(isBootstrap), old(bootstrapTable))
      ensures r.Err? ==> IsUntouched(old(currentBatchID), old(startedAt), old(isBootstrap), old(bootstrapTable))
    {
      if |records| == 0 {
        startedAt := io.restartedAt;
        return Ok(());
      }
      var batch := PrepareBatch(io);
      if batch.Err? {
        return Err(batch.error);
      }
      r := CompleteBatch(batch.value, io);
    }

    /** AddRecord when nothing runs between its two regions. */
    method AddRecord(record: RecordRef, pos: Position, io: CloseIo) returns (r: Result<(), CloseError>)
      requires Valid()
      modifies this, store, archive, record
      ensures Valid() && added == old(added) + [record] && lastPosition == pos
      ensures record !in old(records) ==>
                var c := AddCall(record.id, record.body, pos, io);
                && Snapshot() == AddOnce(env, maxEvents, old(Snapshot()), c)
                && r == AddOutcome(env, maxEvents, old(Snapshot()), c)
    {
      var shouldClose := AppendRecord(record, pos);
      if shouldClose {
        r := CloseCurrentBatch(io);
      } else {
        r := Ok(());
      }
    }
  }
}
