/** MemoryStore of internal/store/store.go: three maps updated in place. */
module Store {
  import opened Common
  import opened Records

  datatype StoreState = StoreState(
    batches: map<string, Batch>,
    records: map<string, Record>,
    wormIndex: map<string, WormEntry>)

  /** Records filed under their ids, later ones replacing earlier ones. */
  function PutRecords(m: map<string, Record>, rs: seq<Record>): map<string, Record> {
    if rs == [] then m
    else
      var last := rs[|rs| - 1];
      PutRecords(m, rs[..|rs| - 1])[last.id := last]
  }

  function WithBatch(st: StoreState, batch: Batch, rs: seq<Record>): StoreState {
    st.(batches := st.batches[batch.id := batch], records := PutRecords(st.records, rs))
  }

  function WithoutBatch(m: map<string, Record>, b: string): map<string, Record> {
    map k | k in m && m[k].batchID != b :: m[k]
  }

  function SetStatus(st: StoreState, b: string, status: string, key: Option<string>): StoreState
    requires b in st.batches
  {
    var batch := st.batches[b].(status := status);
    st.(batches := st.batches[b := if key.Some? then batch.(wormObjectKey := key) else batch])
  }

  ghost predicate FiledById(m: map<string, Record>) {
    forall k :: k in m ==> m[k].id == k
  }

  ghost predicate SortedByLeaf(rs: seq<Record>) {
    forall i, j :: 0 <= i < j < |rs| ==> rs[i].leafIndex <= rs[j].leafIndex
  }

  /**
   * rs lists the records of batch b in leaf order.  Which listing comes out
   * when leaf indexes repeat depends on the map's iteration order.
   */
  ghost predicate IsListing(m: map<string, Record>, b: string, rs: seq<Record>) {
    && SortedByLeaf(rs)
    && DistinctIds(rs)
    && (forall i :: 0 <= i < |rs| ==> rs[i].id in m && m[rs[i].id] == rs[i] && rs[i].batchID == b)
    && (forall k :: k in m && m[k].batchID == b ==> m[k] in rs)
  }

  // ------------------------------------------------------------- properties

  lemma {:induction false} PutRecordsKeepsOthers(m: map<string, Record>, rs: seq<Record>, k: string)
    requires forall i :: 0 <= i < |rs| ==> rs[i].id != k
    ensures k in PutRecords(m, rs) <==> k in m
    ensures k in m ==> PutRecords(m, rs)[k] == m[k]
  {
    if rs != [] {
      PutRecordsKeepsOthers(m, rs[..|rs| - 1], k);
    }
  }

  lemma {:induction false} PutRecordsFiles(m: map<string, Record>, rs: seq<Record>, i: nat)
    requires DistinctIds(rs) && i < |rs|
    ensures rs[i].id in PutRecords(m, rs) && PutRecords(m, rs)[rs[i].id] == rs[i]
  {
    var n := |rs| - 1;
    if i < n {
      PutRecordsFiles(m, rs[..n], i);
    }
  }

  lemma {:induction false} PutRecordsSource(m: map<string, Record>, rs: seq<Record>, k: string)
    requires k in PutRecords(m, rs)
    ensures PutRecords(m, rs)[k] in rs || (k in m && PutRecords(m, rs)[k] == m[k])
  {
    if rs != [] && rs[|rs| - 1].id != k {
      PutRecordsSource(m, rs[..|rs| - 1], k);
    }
  }

  lemma {:induction false} PutRecordsKeepsFiling(m: map<string, Record>, rs: seq<Record>)
    requires FiledById(m)
    ensures FiledById(PutRecords(m, rs))
  {
    if rs != [] {
      PutRecordsKeepsFiling(m, rs[..|rs| - 1]);
    }
  }

  /** The store's records of b are exactly those of snap. */
  ghost predicate Holds(m: map<string, Record>, b: string, snap: seq<Record>) {
    && (forall i :: 0 <= i < |snap| ==> snap[i].id in m && m[snap[i].id] == snap[i])
    && (forall k :: k in m && m[k].batchID == b ==> m[k] in snap)
  }

  /** A listing of a stamped batch agrees with it index by index. */
  lemma {:induction false} ListingAt(m: map<string, Record>, b: string, snap: seq<Record>, rs: seq<Record>, k: nat)
    requires Stamped(b, snap) && Holds(m, b, snap) && IsListing(m, b, rs) && k < |snap|
    ensures k < |rs| && rs[k] == snap[k]
  {
    assert snap[k] in rs by { assert m[snap[k].id].batchID == b; }
    var p :| 0 <= p < |rs| && rs[p] == snap[k];
    if p < k {
      ListingAt(m, b, snap, rs, p);
      assert false;
    } else if p > k {
      assert m[rs[k].id] in snap;
      var j :| 0 <= j < |snap| && snap[j] == rs[k];
      assert j <= k;
      if j < k {
        ListingAt(m, b, snap, rs, j);
      }
      assert false;
    }
  }

  lemma {:induction false} ListingIndex(m: map<string, Record>, b: string, snap: seq<Record>, rs: seq<Record>, i: nat)
    requires Stamped(b, snap) && Holds(m, b, snap) && IsListing(m, b, rs) && i < |rs|
    ensures i < |snap|
  {
    assert m[rs[i].id] in snap;
    var j :| 0 <= j < |snap| && snap[j] == rs[i];
    ListingAt(m, b, snap, rs, j);
  }

  /** Whatever order the map is iterated in, there is one listing of a stamped batch. */
  lemma {:induction false} ListingUnique(m: map<string, Record>, b: string, snap: seq<Record>, rs: seq<Record>)
    requires Stamped(b, snap) && Holds(m, b, snap) && IsListing(m, b, rs)
    ensures rs == snap
  {
    forall k | 0 <= k < |snap| ensures k < |rs| && rs[k] == snap[k] {
      ListingAt(m, b, snap, rs, k);
    }
    if |rs| > 0 {
      ListingIndex(m, b, snap, rs, |rs| - 1);
    }
    if |snap| > 0 {
      ListingAt(m, b, snap, rs, |snap| - 1);
    }
  }

  // ----------------------------------------------------------------- sorting

  /** r placed before the first record with a larger leaf index. */
  function InsertByLeaf(rs: seq<Record>, r: Record): seq<Record> {
    if rs == [] || r.leafIndex <= rs[0].leafIndex then [r] + rs
    else [rs[0]] + InsertByLeaf(rs[1..], r)
  }

  lemma {:induction false} InsertMembers(rs: seq<Record>, r: Record, x: Record)
    ensures x in InsertByLeaf(rs, r) <==> x == r || x in rs
  {
    if rs == [] || r.leafIndex <= rs[0].leafIndex {
    } else {
      InsertMembers(rs[1..], r, x);
      assert rs == [rs[0]] + rs[1..];
    }
  }

  lemma {:induction false} InsertSorted(rs: seq<Record>, r: Record)
    requires SortedByLeaf(rs)
    ensures SortedByLeaf(InsertByLeaf(rs, r))
  {
    if rs == [] || r.leafIndex <= rs[0].leafIndex {
    } else {
      var tail := InsertByLeaf(rs[1..], r);
      InsertSorted(rs[1..], r);
      forall j | 0 <= j < |tail| ensures rs[0].leafIndex <= tail[j].leafIndex {
        InsertMembers(rs[1..], r, tail[j]);
      }
    }
  }

  lemma {:induction false} InsertDistinct(rs: seq<Record>, r: Record)
    requires DistinctIds(rs) && forall i :: 0 <= i < |rs| ==> rs[i].id != r.id
    ensures DistinctIds(InsertByLeaf(rs, r))
  {
    if rs == [] || r.leafIndex <= rs[0].leafIndex {
    } else {
      var tail := InsertByLeaf(rs[1..], r);
      InsertDistinct(rs[1..], r);
      forall j | 0 <= j < |tail| ensures rs[0].id != tail[j].id {
        InsertMembers(rs[1..], r, tail[j]);
      }
    }
  }

  /** Stands for sort.Slice on the leaf index. */
  method SortByLeafIndex(rs: seq<Record>) returns (out: seq<Record>)
    requires DistinctIds(rs)
    ensures SortedByLeaf(out) && DistinctIds(out)
    ensures forall x :: x in out <==> x in rs
  {
    out := [];
    for i := 0 to |rs|
      invariant SortedByLeaf(out) && DistinctIds(out)
      invariant forall x :: x in out <==> x in rs[..i]
    {
      InsertSorted(out, rs[i]);
      forall j | 0 <= j < |out| ensures out[j].id != rs[i].id {
        assert out[j] in rs[..i];
      }
      InsertDistinct(out, rs[i]);
      forall x ensures x in InsertByLeaf(out, rs[i]) <==> x in rs[..i + 1] {
        InsertMembers(out, rs[i], x);
        assert rs[..i + 1] == rs[..i] + [rs[i]];
      }
      out := InsertByLeaf(out, rs[i]);
    }
    assert rs[..|rs|] == rs;
  }

  // --------------------------------------------------------------- the class

  datatype StoreError = ErrNotFound

  class MemoryStore {
    var batches: map<string, Batch>
    var records: map<string, Record>
    var wormIndex: map<string, WormEntry>

    ghost predicate Valid()
      reads this
    {
      FiledById(records)
    }

    ghost function State(): StoreState
      reads this
    {
      StoreState(batches, records, wormIndex)
    }

    constructor ()
      ensures Valid() && State() == StoreState(map[], map[], map[])
    {
      batches, records, wormIndex := map[], map[], map[];
    }

    method CreateBatch(batch: Batch, rs: seq<Record>)
      requires Valid()
      modifies this
      ensures Valid() && State() == WithBatch(old(State()), batch, rs)
    {
      batches := batches[batch.id := batch];
      for i := 0 to |rs|
        invariant records == PutRecords(old(records), rs[..i])
        invariant batches == old(batches)[batch.id := batch] && wormIndex == old(wormIndex)
      {
        assert rs[..i + 1][..i] == rs[..i];
        records := records[rs[i].id := rs[i]];
      }
      assert rs[..|rs|] == rs;
      PutRecordsKeepsFiling(old(records), rs);
    }

    method UpdateBatchStatus(id: string, status: string, key: Option<string>)
      returns (r: Result<(), StoreError>)
      requires Valid()
      modifies this
      ensures Valid()
      ensures id !in old(batches) ==> r == Err(ErrNotFound) && State() == old(State())
      ensures id in old(batches) ==> r == Ok(()) && State() == SetStatus(old(State()), id, status, key)
      ensures id in old(batches) ==>
                var row := old(batches)[id];
                && batches == old(batches)[id := row.(status := status,
                                                      wormObjectKey := if key.Some? then key else row.wormObjectKey)]
                && records == old(records) && wormIndex == old(wormIndex)
    {
      if id !in batches {
        return Err(ErrNotFound);
      }
      var b := batches[id].(status := status);
      if key.Some? {
        b := b.(wormObjectKey := key);
      }
      batches := batches[id := b];
      return Ok(());
    }

    /** The position of a batch that no other batch was closed after. */
    method GetLatestCheckpoint() returns (r: Option<Position>)
      ensures batches == map[] ==> r == None
      ensures batches != map[] ==>
                exists b :: b in batches && r == Some(batches[b].position) &&
                            forall c :: c in batches ==> batches[c].closedAt <= batches[b].closedAt
    {
      var latest: Option<string> := None;
      var todo := batches.Keys;
      while todo != {}
        invariant todo <= batches.Keys
        invariant latest.Some? ==> latest.value in batches
        invariant latest.None? ==> todo == batches.Keys
        invariant forall c :: c in batches && c !in todo && latest.Some? ==>
                                batches[c].closedAt <= batches[latest.value].closedAt
        decreases |todo|
      {
        var b :| b in todo;
        if latest.None? || batches[b].closedAt > batches[latest.value].closedAt {
          latest := Some(b);
        }
        todo := todo - {b};
      }
      if latest.None? {
        assert batches.Keys == {};
        return None;
      }
      return Some(batches[latest.value].position);
    }

    /** Signed batches closed before the cutoff, each once, in some order. */
    method GetBatchesForTiering(olderThan: nat) returns (res: seq<string>)
      ensures forall i, j :: 0 <= i < j < |res| ==> res[i] != res[j]
      ensures forall b :: b in res <==>
                b in batches && batches[b].status == "signed" && batches[b].closedAt < olderThan
    {
      res := [];
      var todo := batches.Keys;
      while todo != {}
        invariant todo <= batches.Keys
        invariant forall i, j :: 0 <= i < j < |res| ==> res[i] != res[j]
        invariant forall b :: b in res <==>
                    b in batches && b !in todo && batches[b].status == "signed" && batches[b].closedAt < olderThan
        decreases |todo|
      {
        var b :| b in todo;
        if batches[b].status == "signed" && batches[b].closedAt < olderThan {
          assert b !in res;
          res := res + [b];
        }
        todo := todo - {b};
      }
    }

    /** Shared by GetRecordsByBatchID and GetRecordForVerification. */
    method GetRecordsByBatchID(batchID: string) returns (res: seq<Record>)
      requires Valid()
      ensures IsListing(records, batchID, res)
    {
      var found := [];
      var todo := records.Keys;
      while todo != {}
        invariant todo <= records.Keys
        invariant DistinctIds(found)
        invariant forall x :: x in found <==>
                    x.id in records && x.id !in todo && records[x.id] == x && x.batchID == batchID
        decreases |todo|
      {
        var k :| k in todo;
        if records[k].batchID == batchID {
          forall i | 0 <= i < |found| ensures found[i].id != k {
            assert found[i] in found;
          }
          found := found + [records[k]];
        }
        todo := todo - {k};
      }
      res := SortByLeafIndex(found);
    }

    method DeleteRecordsByBatchID(batchID: string)
      requires Valid()
      modifies this
      ensures Valid() && State() == old(State()).(records := WithoutBatch(old(records), batchID))
    {
      var todo := records.Keys;
      while todo != {}
        invariant todo <= old(records.Keys)
        invariant batches == old(batches) && wormIndex == old(wormIndex)
        invariant forall k :: k in records <==>
                    k in old(records) && (k in todo || old(records)[k].batchID != batchID)
        invariant forall k :: k in records ==> records[k] == old(records)[k]
        decreases |todo|
      {
        var id :| id in todo;
        if records[id].batchID == batchID {
          records := records - {id};
        }
        todo := todo - {id};
      }
    }

    method InsertWORMIndex(entry: WormEntry)
      requires Valid()
      modifies this
      ensures Valid() && State() == old(State()).(wormIndex := old(wormIndex)[entry.batchID := entry])
    {
      wormIndex := wormIndex[entry.batchID := entry];
    }
  }
}
