/** The write-once directory of internal/archive/archive.go. */
module Archive {
  import opened Common

  /**
   * How one write meets the file system: `placed` is false when any step up to
   * and including the rename fails, `isSealed` is false when only the final
   * chmod fails, which is after the object is in place.
   */
  datatype WriteIo = WriteIo(placed: bool, isSealed: bool)

  /** The objects of the directory: a batch's signed checkpoint, and its tiered records. */
  datatype ObjectKey = CheckpointObject(batchID: string) | ArchiveObject(batchID: string)

  /** The relative path an object is stored under. */
  function PathOf(key: ObjectKey): string {
    match key
    case CheckpointObject(b) => "checkpoints/" + b + ".json"
    case ArchiveObject(b) => "archives/" + b + ".jsonl"
  }

  /** Different objects have different paths, so writing one never meets another. */
  lemma {:induction false} PathsDiffer(x: ObjectKey, y: ObjectKey)
    requires PathOf(x) == PathOf(y)
    ensures x == y
  {
    var p, q := PathOf(x), PathOf(y);
    assert p[0] == if x.ArchiveObject? then 'a' else 'c';
    assert q[0] == if y.ArchiveObject? then 'a' else 'c';
    var n, m := if x.ArchiveObject? then 9 else 12, if x.ArchiveObject? then 6 else 5;
    assert p[n..|p| - m] == x.batchID && q[n..|q| - m] == y.batchID;
  }

  /** The directory after a write. */
  function Written(objects: map<ObjectKey, Bytes>, key: ObjectKey, data: Bytes, io: WriteIo): map<ObjectKey, Bytes> {
    if key in objects || !io.placed then objects else objects[key := data]
  }

  predicate WriteOk(objects: map<ObjectKey, Bytes>, key: ObjectKey, io: WriteIo) {
    key !in objects && io.placed && io.isSealed
  }

  datatype ArchiveError = ErrObjectExists | ErrIo

  class LocalDirArchiveStore {
    var objects: map<ObjectKey, Bytes>

    constructor ()
      ensures objects == map[]
    {
      objects := map[];
    }

    /** No object that exists is ever replaced, whatever fails. */
    method WriteImmutable(key: ObjectKey, data: Bytes, io: WriteIo) returns (r: Result<(), ArchiveError>)
      modifies this
      ensures objects == Written(old(objects), key, data, io)
      ensures r.Ok? <==> WriteOk(old(objects), key, io)
      ensures r == Err(ErrObjectExists) <==> key in old(objects)
      ensures forall k :: k in old(objects) ==> k in objects && objects[k] == old(objects)[k]
      ensures r.Ok? ==> key in objects && objects[key] == data
    {
      if key in objects {
        return Err(ErrObjectExists);
      }
      if !io.placed {
        return Err(ErrIo);
      }
      objects := objects[key := data];
      if !io.isSealed {
        return Err(ErrIo);
      }
      return Ok(());
    }

    method PutCheckpoint(batchID: string, data: Bytes, io: WriteIo) returns (r: Result<(), ArchiveError>)
      modifies this
      ensures objects == Written(old(objects), CheckpointObject(batchID), data, io)
      ensures r.Ok? <==> WriteOk(old(objects), CheckpointObject(batchID), io)
    {
      r := WriteImmutable(CheckpointObject(batchID), data, io);
    }

    method PutArchive(batchID: string, data: Bytes, io: WriteIo) returns (r: Result<(), ArchiveError>)
      modifies this
      ensures objects == Written(old(objects), ArchiveObject(batchID), data, io)
      ensures r.Ok? <==> WriteOk(old(objects), ArchiveObject(batchID), io)
    {
      r := WriteImmutable(ArchiveObject(batchID), data, io);
    }
  }
}
