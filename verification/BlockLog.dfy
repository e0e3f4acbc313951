/**
 * The block log (libraries/chain/block_database.cpp): an index with one entry per block number over
 * an append-only data area.  Serialisation is a pair of functions that round-trip.
 */
module BlockLogs {
  import opened Common
  import opened Blocks

  type Byte = bv8

  datatype IndexEntry = IndexEntry(pos: nat, size: nat, id: BlockId)

  /** What a gap in the index file reads as. */
  const ZERO_ENTRY := IndexEntry(0, 0, ZERO_ID)

  /** Unpacking inverts packing, no block packs to nothing, and nothing unpacks to no block. */
  ghost predicate RoundTrips<P(!new)>(pack: Block<P> -> seq<Byte>, unpack: seq<Byte> -> Option<Block<P>>) {
    && (forall b :: pack(b) != [] && unpack(pack(b)) == Some(b))
    && unpack([]) == None
  }

  /** A live slot: the id it was stored under and the block. */
  datatype Slot<P> = Slot(id: BlockId, block: Block<P>)

  /** The abstract log after storing and removing, as a map from numbers. */
  function StoredIn<P>(live: map<nat, Slot<P>>, id: BlockId, b: Block<P>): map<nat, Slot<P>> {
    live[id.num := Slot(id, b)]
  }

  function RemovedIn<P>(live: map<nat, Slot<P>>, id: BlockId): map<nat, Slot<P>> {
    if id.num in live && live[id.num].id == id then live - {id.num} else live
  }

  class BlockLog<P(==, !new)> {
    const pack: Block<P> -> seq<Byte>
    const unpack: seq<Byte> -> Option<Block<P>>

    var index: seq<IndexEntry>
    var data: seq<Byte>

    ghost var live: map<nat, Slot<P>>

    ghost predicate Entry(i: nat) reads this
      requires i < |index|
    {
      var e := index[i];
      && (e.size > 0 <==> i in live)
      && (e.size > 0 ==>
           && e.pos + e.size <= |data|
           && data[e.pos..e.pos + e.size] == pack(live[i].block)
           && e.id == live[i].id && e.id.num == i)
    }

    ghost predicate Valid() reads this {
      && RoundTrips(pack, unpack)
      && (forall i :: i in live ==> i < |index|)
      && (forall i: nat :: i < |index| ==> Entry(i))
    }

    constructor (pack: Block<P> -> seq<Byte>, unpack: seq<Byte> -> Option<Block<P>>)
      requires RoundTrips(pack, unpack)
      ensures Valid() && live == map[] && this.pack == pack && this.unpack == unpack
    {
      this.pack, this.unpack := pack, unpack;
      index, data, live := [], [], map[];
    }

    /** Appends the block and points the entry of the id's number at it; the zero id stands for the block's own. */
    method Store(givenId: BlockId, b: Block<P>)
      requires Valid()
      modifies this
      ensures Valid()
      ensures live == StoredIn(old(live), if givenId == ZERO_ID then b.id else givenId, b)
      ensures old(data) <= data
    {
      var id := if givenId == ZERO_ID then b.id else givenId;
      var bytes := pack(b);
      var e := IndexEntry(|data|, |bytes|, id);
      var longer := if id.num < |index| then index else index + seq(id.num + 1 - |index|, _ => ZERO_ENTRY);
      ghost var before, liveBefore, dataBefore := index, live, data;
      data := data + bytes;
      index := longer[id.num := e];
      live := StoredIn(live, id, b);
      forall i: nat | i < |index| ensures Entry(i) {
        if i == id.num {
          assert data[e.pos..e.pos + e.size] == bytes;
        } else if i < |before| {
          assert old(Entry(i));
          if index[i].size > 0 {
            assert data[index[i].pos..index[i].pos + index[i].size] ==
              dataBefore[index[i].pos..index[i].pos + index[i].size];
          }
        }
      }
    }

    /** Clears the size of the entry if it is this id's; an id beyond the index is an error. */
    method Remove(id: BlockId) returns (ok: bool)
      requires Valid()
      modifies this
      ensures Valid() && data == old(data)
      ensures ok == (id.num < |old(index)|)
      ensures live == RemovedIn(old(live), id)
    {
      if id.num >= |index| { return false; }
      assert Entry(id.num);
      if index[id.num].id == id {
        ghost var before := index;
        index := index[id.num := index[id.num].(size := 0)];
        live := RemovedIn(live, id);
        forall i: nat | i < |index| ensures Entry(i) {
          assert old(Entry(i));
        }
      }
      ok := true;
    }

    predicate Contains(id: BlockId)
      reads this
      requires Valid()
      ensures Contains(id) <==> id != ZERO_ID && id.num in live && live[id.num].id == id
    {
      assert id.num < |index| ==> Entry(id.num);
      id != ZERO_ID && id.num < |index| && index[id.num].id == id && index[id.num].size > 0
    }

    /** Reading an entry's bytes, unpacking them and checking that the block has the entry's id. */
    function ReadChecked(i: nat): (r: Option<Block<P>>)
      reads this
      requires Valid() && i < |index|
      ensures r == if i in live && live[i].block.id == live[i].id then Some(live[i].block) else None
    {
      assert Entry(i);
      var e := index[i];
      var b := unpack(if e.size > 0 then data[e.pos..e.pos + e.size] else []);
      if b.Some? && b.value.id == e.id then b else None
    }

    function FetchOptional(id: BlockId): (r: Option<Block<P>>)
      reads this
      requires Valid()
      ensures r ==
        if id.num in live && live[id.num].id == id && live[id.num].block.id == id then Some(live[id.num].block)
        else None
    {
      assert id.num < |index| ==> Entry(id.num);
      if id.num >= |index| || index[id.num].id != id then None else ReadChecked(id.num)
    }

    function FetchByNumber(num: nat): (r: Option<Block<P>>)
      reads this
      requires Valid()
      ensures r == if num in live && live[num].block.id == live[num].id then Some(live[num].block) else None
    {
      if num >= |index| then None else ReadChecked(num)
    }

    /** Also answers for a removed entry: only the size was cleared. */
    function FetchBlockId(num: nat): (r: Option<BlockId>)
      reads this
      requires Valid()
      ensures num in live && live[num].id != ZERO_ID ==> r == Some(live[num].id)
      ensures r.Some? ==> num < |index| && r.value == index[num].id
    {
      assert num < |index| ==> Entry(num);
      if num >= |index| || index[num].id == ZERO_ID then None else Some(index[num].id)
    }

    /** The scan that last() and last_id() share: the highest entry with a size, if any. */
    method LastEntry() returns (found: Option<IndexEntry>)
      requires Valid()
      ensures found.None? <==> live == map[]
      ensures found.Some? ==> var i := found.value.id.num;
        i in live && index[i] == found.value && forall j :: j in live ==> j <= i
    {
      if |index| < 1 { return None; }
      var e := index[|index| - 1];
      var pos := |index|;
      assert Entry(|index| - 1);
      while e.size == 0 && pos > 0
        invariant 0 <= pos <= |index| && |index| > 0
        invariant e == index[if pos == |index| then pos - 1 else pos]
        invariant forall j :: j in live ==> j < pos || (j == pos && e.size > 0)
        decreases pos
      {
        pos := pos - 1;
        e := index[pos];
        assert Entry(pos);
      }
      if e.size == 0 {
        assert pos == 0;
        assert live.Keys == {};
        return None;
      }
      ghost var at := if pos == |index| then pos - 1 else pos;
      assert Entry(at);
      found := Some(e);
    }

    method Last() returns (r: Option<Block<P>>)
      requires Valid()
      ensures r.None? <==> live == map[]
      ensures r.Some? ==> exists i :: i in live && r.value == live[i].block && forall j :: j in live ==> j <= i
    {
      var e := LastEntry();
      if e == None { return None; }
      assert Entry(e.value.id.num);
      r := unpack(data[e.value.pos..e.value.pos + e.value.size]);
    }

    method LastId() returns (r: Option<BlockId>)
      requires Valid()
      ensures r.None? <==> live == map[]
      ensures r.Some? ==> r.value.num in live && r.value == live[r.value.num].id && forall j :: j in live ==>
        j <= r.value.num
    {
      var e := LastEntry();
      if e == None { return None; }
      assert Entry(e.value.id.num);
      r := Some(e.value.id);
    }
  }

  // ---------- runs ----------

  datatype LogOp<P> = Store(id: BlockId, block: Block<P>) | Remove(id: BlockId)

  function Performed<P>(live: map<nat, Slot<P>>, op: LogOp<P>): map<nat, Slot<P>> {
    match op
    case Store(id, b) => StoredIn(live, id, b)
    case Remove(id) => RemovedIn(live, id)
  }

  function RunLog<P>(live: map<nat, Slot<P>>, ops: seq<LogOp<P>>): map<nat, Slot<P>>
    decreases |ops|
  {
    if ops == [] then live else RunLog(Performed(live, ops[0]), ops[1..])
  }

  /** Every live block is stored under its own id. */
  ghost predicate OwnIds<P>(live: map<nat, Slot<P>>) {
    forall i :: i in live ==> live[i].block.id == live[i].id && live[i].id.num == i && live[i].id != ZERO_ID
  }

  lemma {:induction false} RunsKeepOwnIds<P>(live: map<nat, Slot<P>>, ops: seq<LogOp<P>>)
    requires OwnIds(live)
    requires forall op :: op in ops && op.Store? ==> op.id == op.block.id && op.id != ZERO_ID
    ensures OwnIds(RunLog(live, ops))
    decreases |ops|
  {
    if ops != [] {
      assert ops[0] in ops;
      RunsKeepOwnIds(Performed(live, ops[0]), ops[1..]);
    }
  }

  /** A block stored in a run can be fetched until a later store or removal touches its number. */
  lemma {:induction false} LatestStoreIsLive<P>(live: map<nat, Slot<P>>, id: BlockId, b: Block<P>, later: seq<LogOp<P>>)
    requires forall op :: op in later ==> op.id.num != id.num || (op.Remove? && op.id != id)
    ensures var l := RunLog(live, [Store(id, b)] + later); id.num in l && l[id.num] == Slot(id, b)
  {
    assert ([Store(id, b)] + later)[1..] == later;
    StaysLive(StoredIn(live, id, b), id, later);
  }

  lemma {:induction false} StaysLive<P>(live: map<nat, Slot<P>>, id: BlockId, ops: seq<LogOp<P>>)
    requires id.num in live && live[id.num].id == id
    requires forall op :: op in ops ==> op.id.num != id.num || (op.Remove? && op.id != id)
    ensures var l := RunLog(live, ops); id.num in l && l[id.num] == live[id.num]
    decreases |ops|
  {
    if ops != [] {
      assert ops[0] in ops;
      StaysLive(Performed(live, ops[0]), id, ops[1..]);
    }
  }

  /** `contains` and `fetch_optional` agree on an id exactly when no block with another id was stored under it. */
  lemma ContainsAgreesWithFetch<P(!new)>(log: BlockLog<P>, id: BlockId)
    requires log.Valid() && id != ZERO_ID
    ensures (log.Contains(id) <==> log.FetchOptional(id).Some?) <==>
      !(id.num in log.live && log.live[id.num].id == id && log.live[id.num].block.id != id)
    ensures OwnIds(log.live) ==> (log.Contains(id) <==> log.FetchOptional(id).Some?)
  {
  }
}
