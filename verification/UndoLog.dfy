/**
 * The undo records of the object database (libraries/db/undo_database.cpp), as values.
 *
 * An undo record lists, relative to the moment its session began, which objects were
 * created, changed and removed, and where each index's id counter stood.  `Explains`
 * says what a record means; undoing and merging are then proved exact against it.
 */
module UndoLog {

  /** An index is named by its space and type; ids count upwards inside it. */
  datatype IndexKey = IndexKey(space: nat, kind: nat)
  datatype ObjectId = ObjectId(index: IndexKey, instance: nat)

  datatype Db<V> = Db(objects: map<ObjectId, V>, nextIds: map<IndexKey, nat>)

  datatype UndoState<V> = UndoState(
    oldValues: map<ObjectId, V>,
    oldNextIds: map<IndexKey, nat>,
    newIds: set<ObjectId>,
    removed: map<ObjectId, V>)

  function EmptyState<V>(): UndoState<V> {
    UndoState(map[], map[], {}, map[])
  }

  // ---------- the three recording hooks ----------

  function OnCreate<V>(r: UndoState<V>, id: ObjectId): UndoState<V> {
    r.(oldNextIds := if id.index in r.oldNextIds then r.oldNextIds else r.oldNextIds[id.index := id.instance],
       newIds := r.newIds + {id})
  }

  function OnModify<V>(r: UndoState<V>, id: ObjectId, was: V): UndoState<V> {
    if id in r.newIds || id in r.oldValues then r
    else r.(oldValues := r.oldValues[id := was])
  }

  function OnRemove<V>(r: UndoState<V>, id: ObjectId, was: V): UndoState<V> {
    if id in r.newIds then r.(newIds := r.newIds - {id})
    else if id in r.oldValues then
      r.(removed := r.removed[id := r.oldValues[id]], oldValues := r.oldValues - {id})
    else if id in r.removed then r
    else r.(removed := r.removed[id := was])
  }

  // ---------- changes of the object database ----------

  function CreateIn<V>(db: Db<V>, k: IndexKey, v: V): Db<V>
    requires k in db.nextIds
  {
    Db(db.objects[ObjectId(k, db.nextIds[k]) := v], db.nextIds[k := db.nextIds[k] + 1])
  }

  function ModifyIn<V>(db: Db<V>, id: ObjectId, v: V): Db<V>
    requires id in db.objects
  {
    db.(objects := db.objects[id := v])
  }

  function RemoveIn<V>(db: Db<V>, id: ObjectId): Db<V>
    requires id in db.objects
  {
    db.(objects := db.objects - {id})
  }

  // ---------- undoing and merging records ----------

  /** Every object the record wants to change back or delete is there, and nothing it re-inserts is. */
  ghost predicate Applicable<V>(r: UndoState<V>, db: Db<V>) {
    && r.oldValues.Keys <= db.objects.Keys
    && r.newIds <= db.objects.Keys
    && r.removed.Keys !! (db.objects.Keys - r.newIds)
    && r.oldNextIds.Keys <= db.nextIds.Keys
  }

  /** The four loops of undo(): change back, delete what was created, reset counters, re-insert. */
  function Undone<V>(r: UndoState<V>, db: Db<V>): Db<V> {
    Db((db.objects + r.oldValues) - r.newIds + r.removed, db.nextIds + r.oldNextIds)
  }

  /** The 4x4 table of merge(), cell by cell; `a` is the older record. */
  function Merged<V>(a: UndoState<V>, b: UndoState<V>): UndoState<V> {
    var was := a.oldValues + (map id | id in b.oldValues && id !in a.newIds && id !in a.oldValues :: b.oldValues[id]);
    var new_ := a.newIds + b.newIds;
    UndoState(
      was - (b.removed.Keys - new_),
      b.oldNextIds + a.oldNextIds,
      new_ - b.removed.Keys,
      a.removed + (map id | id in b.removed && id !in new_ :: if id in was then was[id] else b.removed[id]))
  }

  // ---------- what a record means ----------

  /** Ids are only ever taken from the counter of their index. */
  ghost predicate IdsBelowCounters<V>(db: Db<V>) {
    forall id :: id in db.objects ==> id.index in db.nextIds && id.instance < db.nextIds[id.index]
  }

  ghost predicate ExplainsObject<V>(before: Db<V>, r: UndoState<V>, after: Db<V>, id: ObjectId) {
    if id in r.newIds then
      && id !in r.oldValues && id !in r.removed
      && id !in before.objects && id in after.objects
      && id.index in before.nextIds && before.nextIds[id.index] <= id.instance
    else if id in r.oldValues then
      && id !in r.removed && id in after.objects
      && id in before.objects && before.objects[id] == r.oldValues[id]
    else if id in r.removed then
      && id !in after.objects
      && id in before.objects && before.objects[id] == r.removed[id]
    else
      && (id in before.objects <==> id in after.objects)
      && (id in before.objects ==> before.objects[id] == after.objects[id])
  }

  ghost predicate ExplainsCounter<V>(before: Db<V>, r: UndoState<V>, after: Db<V>, k: IndexKey) {
    && (k in before.nextIds <==> k in after.nextIds)
    && (k in r.oldNextIds ==> k in before.nextIds && r.oldNextIds[k] == before.nextIds[k])
    && (k in before.nextIds ==> before.nextIds[k] <= after.nextIds[k])
    && (k in before.nextIds && k !in r.oldNextIds ==> before.nextIds[k] == after.nextIds[k])
  }

  /** `r` is exactly the difference between `before` and `after`. */
  ghost predicate Explains<V>(before: Db<V>, r: UndoState<V>, after: Db<V>) {
    && IdsBelowCounters(before) && IdsBelowCounters(after)
    && (forall id :: ExplainsObject(before, r, after, id))
    && (forall k :: ExplainsCounter(before, r, after, k))
  }

  lemma FreshRecordExplains<V>(db: Db<V>)
    requires IdsBelowCounters(db)
    ensures Explains(db, EmptyState(), db)
  {
  }

  lemma CreateKeepsExplains<V>(before: Db<V>, r: UndoState<V>, db: Db<V>, k: IndexKey, v: V)
    requires Explains(before, r, db) && k in db.nextIds
    ensures Explains(before, OnCreate(r, ObjectId(k, db.nextIds[k])), CreateIn(db, k, v))
  {
    var id, r', after := ObjectId(k, db.nextIds[k]), OnCreate(r, ObjectId(k, db.nextIds[k])), CreateIn(db, k, v);
    assert ExplainsCounter(before, r, db, k);
    assert id !in before.objects;
    forall i ensures ExplainsObject(before, r', after, i) {
      assert ExplainsObject(before, r, db, i);
    }
    forall j ensures ExplainsCounter(before, r', after, j) {
      assert ExplainsCounter(before, r, db, j);
    }
  }

  lemma ModifyKeepsExplains<V>(before: Db<V>, r: UndoState<V>, db: Db<V>, id: ObjectId, v: V)
    requires Explains(before, r, db) && id in db.objects
    ensures Explains(before, OnModify(r, id, db.objects[id]), ModifyIn(db, id, v))
  {
    var r', after := OnModify(r, id, db.objects[id]), ModifyIn(db, id, v);
    forall i ensures ExplainsObject(before, r', after, i) {
      assert ExplainsObject(before, r, db, i);
    }
    forall j ensures ExplainsCounter(before, r', after, j) {
      assert ExplainsCounter(before, r, db, j);
    }
  }

  lemma RemoveKeepsExplains<V>(before: Db<V>, r: UndoState<V>, db: Db<V>, id: ObjectId)
    requires Explains(before, r, db) && id in db.objects
    ensures Explains(before, OnRemove(r, id, db.objects[id]), RemoveIn(db, id))
  {
    var r', after := OnRemove(r, id, db.objects[id]), RemoveIn(db, id);
    forall i ensures ExplainsObject(before, r', after, i) {
      assert ExplainsObject(before, r, db, i);
    }
    forall j ensures ExplainsCounter(before, r', after, j) {
      assert ExplainsCounter(before, r, db, j);
    }
  }

  // ---------- undo is exact, merge composes ----------

  /** Undoing a record puts back every object and every counter, and never trips over a missing one. */
  lemma UndoIsExact<V>(before: Db<V>, r: UndoState<V>, after: Db<V>)
    requires Explains(before, r, after)
    ensures Applicable(r, after)
    ensures Undone(r, after) == before
  {
    var back := Undone(r, after);
    forall id ensures id in back.objects <==> id in before.objects
      ensures id in before.objects ==> back.objects[id] == before.objects[id]
      ensures id in r.oldValues ==> id in after.objects
      ensures id in r.newIds ==> id in after.objects
      ensures id in r.removed ==> id !in after.objects
    {
      assert ExplainsObject(before, r, after, id);
    }
    assert back.objects == before.objects;
    forall k ensures k in back.nextIds <==> k in before.nextIds
      ensures k in before.nextIds ==> back.nextIds[k] == before.nextIds[k]
      ensures k in r.oldNextIds ==> k in after.nextIds
    {
      assert ExplainsCounter(before, r, after, k);
    }
    assert back.nextIds == before.nextIds;
  }

  /** The N/A cells of the merge table, for consecutive records: an id created by the younger record
      is unknown to the older one, and an id the older one removed is unknown to the younger one. */
  lemma ImpossibleCellsNeverOccur<V>(s0: Db<V>, a: UndoState<V>, s1: Db<V>, b: UndoState<V>, s2: Db<V>, id: ObjectId)
    requires Explains(s0, a, s1) && Explains(s1, b, s2)
    ensures id in b.newIds ==> id !in a.newIds && id !in a.oldValues && id !in a.removed
    ensures id in a.removed ==> id !in b.newIds && id !in b.oldValues && id !in b.removed
  {
    assert ExplainsObject(s0, a, s1, id) && ExplainsObject(s1, b, s2, id);
    assert ExplainsCounter(s0, a, s1, id.index);
  }

  lemma MergeExplains<V>(s0: Db<V>, a: UndoState<V>, s1: Db<V>, b: UndoState<V>, s2: Db<V>)
    requires Explains(s0, a, s1) && Explains(s1, b, s2)
    ensures Explains(s0, Merged(a, b), s2)
  {
    var m := Merged(a, b);
    forall id ensures ExplainsObject(s0, m, s2, id) {
      ImpossibleCellsNeverOccur(s0, a, s1, b, s2, id);
      assert ExplainsObject(s0, a, s1, id) && ExplainsObject(s1, b, s2, id);
      assert ExplainsCounter(s0, a, s1, id.index);
    }
    forall k ensures ExplainsCounter(s0, m, s2, k) {
      assert ExplainsCounter(s0, a, s1, k) && ExplainsCounter(s1, b, s2, k);
    }
  }

  /** Undoing the merged record is undoing the younger record and then the older one. */
  lemma MergeComposes<V>(s0: Db<V>, a: UndoState<V>, s1: Db<V>, b: UndoState<V>, s2: Db<V>)
    requires Explains(s0, a, s1) && Explains(s1, b, s2)
    ensures Undone(Merged(a, b), s2) == Undone(a, Undone(b, s2)) == s0
    ensures Applicable(Merged(a, b), s2)
  {
    MergeExplains(s0, a, s1, b, s2);
    UndoIsExact(s0, Merged(a, b), s2);
    UndoIsExact(s1, b, s2);
    UndoIsExact(s0, a, s1);
  }
}
