/** The stream-metadata store, modelled only at the interface the gateway
    uses: look a record up by id, and merge a partial record into it.
    Only the two fields the gateway reads or writes are kept. */
module StreamStore {
  import opened Wrappers

  type StreamId = string

  /** The persisted fields of a stream the gateway touches. */
  datatype StreamRecord = StreamRecord(isLive: bool, viewerCount: nat)

  /** A `Partial<Stream>`: each field is either overwritten or left alone. */
  datatype Patch = Patch(isLive: Option<bool>, viewerCount: Option<nat>)

  /** One call `update(id, patch)` issued to the store. */
  datatype Write = Write(id: StreamId, patch: Patch)

  type Store = map<StreamId, StreamRecord>

  /** Column defaults of a freshly created stream. */
  const DefaultRecord: StreamRecord := StreamRecord(false, 0)

  /** The patch `{ viewerCount: n }`. */
  function CountPatch(n: nat): Patch {
    Patch(None, Some(n))
  }

  /** The patch `{ isLive: b }`. */
  function LivePatch(b: bool): Patch {
    Patch(Some(b), None)
  }

  /** The gateway's two patches: `{ viewerCount: n }` overwrites the count
      and keeps the live flag; `{ isLive: b }` overwrites the live flag and
      keeps the count. */
  lemma PatchEffects(rec: StreamRecord, n: nat, b: bool)
    ensures Merge(rec, CountPatch(n)) == StreamRecord(rec.isLive, n)
    ensures Merge(rec, LivePatch(b)) == StreamRecord(b, rec.viewerCount)
  {
  }

  /** `findOne(id)`: the record, or nothing when no row has that id. */
  function FindOne(store: Store, id: StreamId): (r: Option<StreamRecord>)
    ensures r.Some? <==> id in store
    ensures r.Some? ==> r.value == store[id]
  {
    if id in store then Some(store[id]) else None
  }

  /** Merging a partial record: fields the patch names take the patch's
      value, every other field keeps the record's value. */
  function Merge(rec: StreamRecord, patch: Patch): (r: StreamRecord)
    ensures r.isLive == (if patch.isLive.Some? then patch.isLive.value else rec.isLive)
    ensures r.viewerCount == (if patch.viewerCount.Some? then patch.viewerCount.value else rec.viewerCount)
  {
    StreamRecord(patch.isLive.GetOr(rec.isLive), patch.viewerCount.GetOr(rec.viewerCount))
  }

  /** `update(id, patch)`: merges the patch into the row with that id; an
      update of an id with no row changes nothing. No row is created or
      deleted. */
  function Update(store: Store, id: StreamId, patch: Patch): (r: Store)
    ensures r.Keys == store.Keys
    ensures id in store ==> r[id] == Merge(store[id], patch)
    ensures forall other :: other in store && other != id ==> r[other] == store[other]
  {
    if id in store then store[id := Merge(store[id], patch)] else store
  }

  /** The store after a sequence of writes, in issue order. */
  function ApplyWrites(store: Store, ws: seq<Write>): (r: Store)
    ensures r.Keys == store.Keys
    ensures |ws| == 1 ==> r == Update(store, ws[0].id, ws[0].patch)
    decreases |ws|
  {
    if ws == [] then store
    else ApplyWrites(Update(store, ws[0].id, ws[0].patch), ws[1..])
  }

  /** True iff no two writes go to the same id. */
  predicate DistinctIds(ws: seq<Write>) {
    forall i, j :: 0 <= i < j < |ws| ==> ws[i].id != ws[j].id
  }

  /** The ids a sequence of writes goes to. */
  function WrittenIds(ws: seq<Write>): set<StreamId> {
    set i | 0 <= i < |ws| :: ws[i].id
  }

  /** Reading back a merged field: `findOne` after `update` sees the patch
      applied on top of the old record, and still sees nothing for an
      absent id. */
  lemma FindAfterUpdate(store: Store, id: StreamId, patch: Patch)
    ensures FindOne(Update(store, id, patch), id) ==
            (if id in store then Some(Merge(store[id], patch)) else None)
  {
  }

  /** Repeating an update changes nothing further. */
  lemma UpdateIdempotent(store: Store, id: StreamId, patch: Patch)
    ensures Update(Update(store, id, patch), id, patch) == Update(store, id, patch)
  {
  }

  /** With writes to distinct ids, the effect of the writes on one id is
      exactly the one write to that id, if there is one. */
  lemma {:induction false} ApplyWritesAt(store: Store, ws: seq<Write>, id: StreamId)
    requires DistinctIds(ws)
    requires id in store
    ensures (forall i :: 0 <= i < |ws| ==> ws[i].id != id) ==> ApplyWrites(store, ws)[id] == store[id]
    ensures forall i :: 0 <= i < |ws| && ws[i].id == id ==>
              ApplyWrites(store, ws)[id] == Merge(store[id], ws[i].patch)
    decreases |ws|
  {
    if ws != [] {
      var s' := Update(store, ws[0].id, ws[0].patch);
      assert DistinctIds(ws[1..]) by {
        forall i, j | 0 <= i < j < |ws[1..]| ensures ws[1..][i].id != ws[1..][j].id {
          assert ws[1..][i] == ws[i + 1] && ws[1..][j] == ws[j + 1];
        }
      }
      ApplyWritesAt(s', ws[1..], id);
      if ws[0].id == id {
        forall i | 0 <= i < |ws[1..]| ensures ws[1..][i].id != id {
          assert ws[1..][i] == ws[i + 1];
        }
      } else {
        forall i | 0 <= i < |ws| && ws[i].id == id
          ensures ApplyWrites(store, ws)[id] == Merge(store[id], ws[i].patch)
        {
          assert ws[1..][i - 1] == ws[i];
        }
      }
    }
  }
}
