/**
 * The object database with its undo database (libraries/db/undo_database.cpp and the hooks in
 * libraries/db/include/graphene/db/index.hpp), updated in place.  Every operation is tied to the
 * functions of UndoLog and UndoSessions; the ghost snapshots say where each record goes back to.
 */
module UndoDatabases {
  import opened Common
  import opened UndoLog
  import opened UndoSessions

  datatype UndoResult = WentBack | Refused | Undefined

  class UndoDatabase<V(==)> {
    var objects: map<ObjectId, V>
    var nextIds: map<IndexKey, nat>

    var stack: seq<UndoState<V>>
    var activeSessions: nat
    var disabled: bool
    var maxSize: nat

    ghost var snapshots: seq<Db<V>>

    ghost function Contents(): Db<V> reads this {
      Db(objects, nextIds)
    }

    ghost function AsLog(): Log<V> reads this {
      Log(Contents(), stack, activeSessions, maxSize)
    }

    ghost predicate Valid() reads this {
      Chained(AsLog(), snapshots)
    }

    constructor (indices: set<IndexKey>)
      ensures Valid() && !disabled
      ensures AsLog() == Log(Db(map[], map k | k in indices :: 0), [], 0, 256)
    {
      objects, nextIds := map[], map k | k in indices :: 0;
      stack, activeSessions, disabled, maxSize := [], 0, false, 256;
      snapshots := [];
    }

    method SetMaxSize(size: nat)
      requires Valid()
      modifies this`maxSize
      ensures Valid() && maxSize == size
    {
      maxSize := size;
    }

    /** Tells whether the session should disable recording again when it ends. */
    method StartUndoSession(forceEnable: bool) returns (disableOnExit: bool)
      requires Valid()
      modifies this
      ensures Valid()
      ensures disableOnExit == (old(disabled) && forceEnable)
      ensures old(disabled) && !forceEnable ==> disabled && AsLog() == old(AsLog()) && snapshots == old(snapshots)
      ensures !old(disabled) || forceEnable ==>
        && !disabled && AsLog() == Started(old(AsLog()))
        && snapshots == Trim(old(snapshots), maxSize) + [old(Contents())]
    {
      if disabled && !forceEnable {
        return false;
      }
      disableOnExit := disabled && forceEnable;
      if forceEnable {
        disabled := false;
      }
      StartKeepsChain(AsLog(), snapshots);
      PushState();
      snapshots := Trim(snapshots, maxSize) + [Contents()];
    }

    method PushState()
      modifies this`stack, this`activeSessions
      ensures AsLog() == Started(old(AsLog()))
    {
      TrimStack();
      stack := stack + [EmptyState()];
      activeSessions := activeSessions + 1;
    }

    method TrimStack()
      modifies this`stack
      ensures stack == Trim(old(stack), maxSize)
    {
      while |stack| > maxSize
        invariant |stack| <= |old(stack)| && stack == old(stack)[|old(stack)| - |stack|..]
        invariant |stack| < |old(stack)| ==> maxSize <= |stack|
      {
        stack := stack[1..];
      }
    }

    /** The hooks: write into the top record, pushing one first when there is none. */
    method Record(update: UndoState<V> -> UndoState<V>)
      modifies this`stack
      ensures disabled ==> stack == old(stack)
      ensures !disabled ==> stack == (var s := Recording(old(AsLog())).stack; s[|s| - 1 := update(s[|s| - 1])])
    {
      if disabled { return; }
      if stack == [] {
        stack := [EmptyState()];
      }
      stack := stack[|stack| - 1 := update(stack[|stack| - 1])];
    }

    /** Creates an object under the next id; None when there is no such index. */
    method Create(k: IndexKey, v: V) returns (id: Option<ObjectId>)
      requires Valid()
      modifies this
      ensures !old(disabled) ==> Valid()
      ensures disabled == old(disabled)
      ensures k !in old(nextIds) ==> id == None && AsLog() == old(AsLog()) && snapshots == old(snapshots)
      ensures k in old(nextIds) ==>
        && id == Some(ObjectId(k, old(nextIds[k])))
        && Contents() == CreateIn(old(Contents()), k, v)
        && (disabled ==> AsLog() == old(AsLog()).(db := Contents()))
        && (!disabled ==>
             AsLog() == Created(old(AsLog()), k, v) && snapshots == RecordingSnaps(old(AsLog()), old(snapshots)))
    {
      if k !in nextIds { return None; }
      ghost var before := AsLog();
      var newId := ObjectId(k, nextIds[k]);
      objects := objects[newId := v];
      nextIds := nextIds[k := nextIds[k] + 1];
      Record(r => OnCreate(r, newId));
      if !disabled {
        assert AsLog() == Created(before, k, v);
        CreateKeepsChain(before, snapshots, k, v);
        snapshots := RecordingSnaps(before, snapshots);
      }
      id := Some(newId);
    }

    /** Changes an object; false when it is not there. */
    method Modify(id: ObjectId, v: V) returns (ok: bool)
      requires Valid()
      modifies this
      ensures !old(disabled) ==> Valid()
      ensures disabled == old(disabled)
      ensures ok == (id in old(objects))
      ensures !ok ==> AsLog() == old(AsLog()) && snapshots == old(snapshots)
      ensures ok && disabled ==> AsLog() == old(AsLog()).(db := ModifyIn(old(Contents()), id, v))
      ensures ok && !disabled ==>
        AsLog() == Modified(old(AsLog()), id, v) && snapshots == RecordingSnaps(old(AsLog()), old(snapshots))
    {
      ok := id in objects;
      if !ok { return; }
      ModifyKeepsChain(AsLog(), snapshots, id, v);
      if !disabled {
        snapshots := RecordingSnaps(AsLog(), snapshots);
      }
      var was := objects[id];
      Record(r => OnModify(r, id, was));
      objects := objects[id := v];
    }

    /** Removes an object; false when it is not there. */
    method Remove(id: ObjectId) returns (ok: bool)
      requires Valid()
      modifies this
      ensures !old(disabled) ==> Valid()
      ensures disabled == old(disabled)
      ensures ok == (id in old(objects))
      ensures !ok ==> AsLog() == old(AsLog()) && snapshots == old(snapshots)
      ensures ok && disabled ==> AsLog() == old(AsLog()).(db := RemoveIn(old(Contents()), id))
      ensures ok && !disabled ==>
        AsLog() == Removed(old(AsLog()), id) && snapshots == RecordingSnaps(old(AsLog()), old(snapshots))
    {
      ok := id in objects;
      if !ok { return; }
      RemoveKeepsChain(AsLog(), snapshots, id);
      if !disabled {
        snapshots := RecordingSnaps(AsLog(), snapshots);
      }
      var was := objects[id];
      Record(r => OnRemove(r, id, was));
      objects := objects - {id};
    }

    /** The loops that undo() and pop_commit() share. */
    method Apply(state: UndoState<V>)
      requires Applicable(state, Contents())
      modifies this`objects, this`nextIds
      ensures Contents() == Undone(state, old(Contents()))
    {
      ChangeBackAndDelete(state);
      ResetAndReinsert(state);
    }

    method ChangeBackAndDelete(state: UndoState<V>)
      requires Applicable(state, Contents())
      modifies this`objects
      ensures objects == (old(objects) + state.oldValues) - state.newIds
    {
      var todo := state.oldValues.Keys;
      while todo != {}
        invariant todo <= state.oldValues.Keys
        invariant objects == old(objects) + (state.oldValues - todo)
      {
        var id :| id in todo;
        assert id in objects;  // get_object finds it
        objects := objects[id := state.oldValues[id]];
        todo := todo - {id};
      }
      var created := state.newIds;
      while created != {}
        invariant created <= state.newIds
        invariant objects == (old(objects) + state.oldValues) - (state.newIds - created)
      {
        var id :| id in created;
        assert id in objects;  // get_object finds it
        objects := objects - {id};
        created := created - {id};
      }
    }

    method ResetAndReinsert(state: UndoState<V>)
      requires state.oldNextIds.Keys <= nextIds.Keys && state.removed.Keys !! objects.Keys
      modifies this`objects, this`nextIds
      ensures objects == old(objects) + state.removed && nextIds == old(nextIds) + state.oldNextIds
    {
      var counters := state.oldNextIds.Keys;
      while counters != {}
        invariant counters <= state.oldNextIds.Keys && objects == old(objects)
        invariant nextIds == old(nextIds) + (state.oldNextIds - counters)
      {
        var k :| k in counters;
        nextIds := nextIds[k := state.oldNextIds[k]];
        counters := counters - {k};
      }
      var todo := state.removed.Keys;
      while todo != {}
        invariant todo <= state.removed.Keys && nextIds == old(nextIds) + state.oldNextIds
        invariant objects == old(objects) + (state.removed - todo)
      {
        var id :| id in todo;
        assert id !in objects;  // insert() throws on a duplicate
        objects := objects[id := state.removed[id]];
        todo := todo - {id};
      }
    }

    /** Undoes the newest record; refused while disabled or without a session.  A session whose record is gone takes
        the back of an empty stack, which is undefined behaviour. */
    method Undo() returns (r: UndoResult)
      requires Valid()
      modifies this
      ensures Valid()
      ensures r ==
        if old(disabled) || old(activeSessions) == 0 then Refused else if old(stack) == [] then Undefined else WentBack
      ensures r == Refused ==> AsLog() == old(AsLog()) && snapshots == old(snapshots) && disabled == old(disabled)
      ensures r == WentBack ==> AsLog() == Undid(old(AsLog())) && !disabled
      ensures r == WentBack ==>
        Contents() == old(snapshots[|snapshots| - 1]) && snapshots == old(snapshots[..|snapshots| - 1])
    {
      if disabled || activeSessions == 0 { return Refused; }
      if stack == [] { return Undefined; }
      UndoTop();
      r := WentBack;
    }

    method UndoTop()
      requires Valid() && !disabled && activeSessions > 0 && stack != []
      modifies this
      ensures Valid() && !disabled && AsLog() == Undid(old(AsLog()))
      ensures Contents() == old(snapshots[|snapshots| - 1]) && snapshots == old(snapshots[..|snapshots| - 1])
    {
      UndoGoesBack(AsLog(), snapshots);
      disabled := true;
      Apply(stack[|stack| - 1]);
      stack := stack[..|stack| - 1];
      disabled := false;
      activeSessions := activeSessions - 1;
      snapshots := snapshots[..|snapshots| - 1];
    }

    /** Folds the newest record into the one below it; refused unless there is one. */
    method Merge() returns (ok: bool)
      requires Valid()
      modifies this
      ensures Valid() && disabled == old(disabled)
      ensures ok == CanMerge(old(AsLog()))
      ensures !ok ==> AsLog() == old(AsLog()) && snapshots == old(snapshots)
      ensures ok ==> AsLog() == MergedTop(old(AsLog())) && snapshots == old(snapshots[..|snapshots| - 1])
    {
      if activeSessions == 0 { return false; }
      if activeSessions == 1 && |stack| == 1 {
        stack := [];
        activeSessions := 0;
        snapshots := [];
        return true;
      }
      if |stack| < 2 { return false; }
      MergeKeepsChain(AsLog(), snapshots);
      ghost var n := |stack|;
      assert Explains(snapshots[n - 2], stack[n - 2], StateAfter(AsLog(), snapshots, n - 2));
      assert Explains(snapshots[n - 1], stack[n - 1], StateAfter(AsLog(), snapshots, n - 1));
      var prev := MergeRecords(stack[|stack| - 2], stack[|stack| - 1], snapshots[n - 2], snapshots[n - 1], Contents());
      stack := stack[..|stack| - 2] + [prev];
      activeSessions := activeSessions - 1;
      snapshots := snapshots[..|snapshots| - 1];
      ok := true;
    }

    /** The loops of merge(). */
    static method MergeRecords(a: UndoState<V>, b: UndoState<V>, ghost s0: Db<V>, ghost s1: Db<V>, ghost s2: Db<V>)
      returns (prev: UndoState<V>)
      requires Explains(s0, a, s1) && Explains(s1, b, s2)
      ensures prev == Merged(a, b)
    {
      forall id ensures id in b.oldValues || id in b.removed ==> id !in a.removed {
        ImpossibleCellsNeverOccur(s0, a, s1, b, s2, id);
      }
      forall id | id in b.removed ensures id !in b.oldValues {
        assert ExplainsObject(s1, b, s2, id);
      }
      prev := MergeUpdates(a, b);
      prev := MergeNewAndCounters(prev, b);
      prev := MergeRemovals(prev, b);
    }

    static method MergeUpdates(a: UndoState<V>, b: UndoState<V>) returns (prev: UndoState<V>)
      requires b.oldValues.Keys !! a.removed.Keys
      ensures prev == a.(oldValues := a.oldValues +
        (map id | id in b.oldValues && id !in a.newIds && id !in a.oldValues :: b.oldValues[id]))
    {
      prev := a;
      var todo := b.oldValues.Keys;
      while todo != {}
        invariant todo <= b.oldValues.Keys
        invariant prev == a.(oldValues := a.oldValues +
          (map id | id in b.oldValues && id !in todo && id !in a.newIds && id !in a.oldValues :: b.oldValues[id]))
      {
        var id :| id in todo;
        if id !in prev.newIds && id !in prev.oldValues {
          assert id !in prev.removed;  // the first assertion of merge()
          prev := prev.(oldValues := prev.oldValues[id := b.oldValues[id]]);
        }
        todo := todo - {id};
      }
    }

    /** The third loop of merge() after it has handled the ids in `done`. */
    static ghost function RemovalsDone(a: UndoState<V>, b: UndoState<V>, done: set<ObjectId>): UndoState<V>
      requires done <= b.removed.Keys
    {
      a.(newIds := a.newIds - done,
         oldValues := a.oldValues - (done - a.newIds),
         removed := a.removed +
           (map id | id in done && id !in a.newIds :: if id in a.oldValues then a.oldValues[id] else b.removed[id]))
    }

    static lemma OneMoreRemoval(a: UndoState<V>, b: UndoState<V>, done: set<ObjectId>, id: ObjectId)
      requires done <= b.removed.Keys && id in b.removed && id !in done && id !in a.removed
      ensures var prev := RemovalsDone(a, b, done);
        && id !in prev.removed
        && RemovalsDone(a, b, done + {id}) ==
           if id in prev.newIds then prev.(newIds := prev.newIds - {id})
           else if id in prev.oldValues then
             prev.(removed := prev.removed[id := prev.oldValues[id]], oldValues := prev.oldValues - {id})
           else prev.(removed := prev.removed[id := b.removed[id]])
    {
      if id in a.newIds {
        CreatedIsRemoved(a, b, done, id);
      } else if id in a.oldValues {
        ModifiedIsRemoved(a, b, done, id);
      } else {
        OlderIsRemoved(a, b, done, id);
      }
    }

    static lemma CreatedIsRemoved(a: UndoState<V>, b: UndoState<V>, done: set<ObjectId>, id: ObjectId)
      requires done <= b.removed.Keys && id in b.removed && id !in done && id in a.newIds
      ensures var prev := RemovalsDone(a, b, done);
        id in prev.newIds && RemovalsDone(a, b, done + {id}) == prev.(newIds := prev.newIds - {id})
    {
      var prev, next := RemovalsDone(a, b, done), RemovalsDone(a, b, done + {id});
      assert next.removed == prev.removed;
      assert next.oldValues == prev.oldValues;
    }

    static lemma ModifiedIsRemoved(a: UndoState<V>, b: UndoState<V>, done: set<ObjectId>, id: ObjectId)
      requires done <= b.removed.Keys && id in b.removed && id !in done && id !in a.newIds && id in a.oldValues
      ensures var prev := RemovalsDone(a, b, done);
        && id !in prev.newIds && id in prev.oldValues
        && RemovalsDone(a, b, done + {id}) ==
           prev.(removed := prev.removed[id := prev.oldValues[id]], oldValues := prev.oldValues - {id})
    {
      var prev, next := RemovalsDone(a, b, done), RemovalsDone(a, b, done + {id});
      assert next.removed == prev.removed[id := prev.oldValues[id]];
      assert next.newIds == prev.newIds;
    }

    static lemma OlderIsRemoved(a: UndoState<V>, b: UndoState<V>, done: set<ObjectId>, id: ObjectId)
      requires done <= b.removed.Keys && id in b.removed && id !in done && id !in a.newIds && id !in a.oldValues
      ensures var prev := RemovalsDone(a, b, done);
        && id !in prev.newIds && id !in prev.oldValues
        && RemovalsDone(a, b, done + {id}) == prev.(removed := prev.removed[id := b.removed[id]])
    {
      var prev, next := RemovalsDone(a, b, done), RemovalsDone(a, b, done + {id});
      assert next.removed == prev.removed[id := b.removed[id]];
      assert next.oldValues == prev.oldValues && next.newIds == prev.newIds;
    }

    static method MergeRemovals(a: UndoState<V>, b: UndoState<V>) returns (prev: UndoState<V>)
      requires b.removed.Keys !! a.removed.Keys
      ensures prev == RemovalsDone(a, b, b.removed.Keys)
    {
      prev := a;
      var todo := b.removed.Keys;
      assert a == RemovalsDone(a, b, b.removed.Keys - todo);
      while todo != {}
        invariant todo <= b.removed.Keys
        invariant prev == RemovalsDone(a, b, b.removed.Keys - todo)
      {
        var id :| id in todo;
        ghost var done := b.removed.Keys - todo;
        OneMoreRemoval(a, b, done, id);
        if id in prev.newIds {
          prev := prev.(newIds := prev.newIds - {id});
        } else if id in prev.oldValues {
          prev := prev.(removed := prev.removed[id := prev.oldValues[id]], oldValues := prev.oldValues - {id});
        } else {
          assert id !in prev.removed;  // the second assertion of merge()
          prev := prev.(removed := prev.removed[id := b.removed[id]]);
        }
        todo := todo - {id};
        assert b.removed.Keys - todo == done + {id};
      }
      assert b.removed.Keys - todo == b.removed.Keys;
    }

    static method MergeNewAndCounters(a: UndoState<V>, b: UndoState<V>) returns (prev: UndoState<V>)
      ensures prev == a.(newIds := a.newIds + b.newIds, oldNextIds := b.oldNextIds + a.oldNextIds)
    {
      prev := a;
      var created := b.newIds;
      while created != {}
        invariant created <= b.newIds
        invariant prev == a.(newIds := a.newIds + (b.newIds - created))
      {
        var id :| id in created;
        prev := prev.(newIds := prev.newIds + {id});
        created := created - {id};
      }
      var counters := b.oldNextIds.Keys;
      while counters != {}
        invariant counters <= b.oldNextIds.Keys
        invariant prev == a.(newIds := a.newIds + b.newIds, oldNextIds := (b.oldNextIds - counters) + a.oldNextIds)
      {
        var k :| k in counters;
        if k !in prev.oldNextIds {
          prev := prev.(oldNextIds := prev.oldNextIds[k := b.oldNextIds[k]]);
        }
        counters := counters - {k};
      }
    }

    /** Keeps the session's record without a session. */
    method Commit() returns (ok: bool)
      requires Valid()
      modifies this`activeSessions
      ensures Valid()
      ensures ok == (old(activeSessions) > 0)
      ensures AsLog() == old(AsLog()).(active := if ok then old(activeSessions) - 1 else 0)
    {
      ok := activeSessions > 0;
      if ok { activeSessions := activeSessions - 1; }
    }

    /** Undoes a committed record, which pops a block; refused while sessions are open. */
    method PopCommit() returns (ok: bool)
      requires Valid()
      modifies this
      ensures Valid()
      ensures ok == (old(activeSessions) == 0 && old(stack) != [])
      ensures !ok ==> AsLog() == old(AsLog()) && snapshots == old(snapshots) && disabled == old(disabled)
      ensures ok ==> Contents() == old(snapshots[|snapshots| - 1]) && snapshots == old(snapshots[..|snapshots| - 1])
      ensures ok ==> stack == old(stack[..|stack| - 1]) && activeSessions == 0 && maxSize == old(maxSize) && !disabled
    {
      ok := activeSessions == 0 && stack != [];
      if !ok { return; }
      UndoGoesBack(AsLog().(active := 1), snapshots);
      disabled := true;
      Apply(stack[|stack| - 1]);
      stack := stack[..|stack| - 1];
      disabled := false;
      snapshots := snapshots[..|snapshots| - 1];
    }
  }
}
