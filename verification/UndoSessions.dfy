/**
 * The stack of undo records and its sessions (libraries/db/undo_database.cpp), while recording
 * is enabled: each operation as a function on the whole log, and what nested sessions keep.
 */
module UndoSessions {
  import opened Arithmetic
  import opened Common
  import opened UndoLog

  /** Objects and counters, the records (oldest first), the number of open sessions and the size limit. */
  datatype Log<V> = Log(db: Db<V>, stack: seq<UndoState<V>>, active: nat, maxSize: nat)

  function Started<V>(l: Log<V>): Log<V> {
    l.(stack := Trim(l.stack, l.maxSize) + [EmptyState()], active := l.active + 1)
  }

  /** The hooks push a record when there is none to write into. */
  function Recording<V>(l: Log<V>): (r: Log<V>)
    ensures r.stack != []
  {
    if l.stack == [] then l.(stack := [EmptyState()]) else l
  }

  function Created<V>(l: Log<V>, k: IndexKey, v: V): Log<V>
    requires k in l.db.nextIds
  {
    var s := Recording(l).stack;
    var top := |s| - 1;
    l.(db := CreateIn(l.db, k, v), stack := s[top := OnCreate(s[top], ObjectId(k, l.db.nextIds[k]))])
  }

  function Modified<V>(l: Log<V>, id: ObjectId, v: V): Log<V>
    requires id in l.db.objects
  {
    var s := Recording(l).stack;
    var top := |s| - 1;
    l.(db := ModifyIn(l.db, id, v), stack := s[top := OnModify(s[top], id, l.db.objects[id])])
  }

  function Removed<V>(l: Log<V>, id: ObjectId): Log<V>
    requires id in l.db.objects
  {
    var s := Recording(l).stack;
    var top := |s| - 1;
    l.(db := RemoveIn(l.db, id), stack := s[top := OnRemove(s[top], id, l.db.objects[id])])
  }

  predicate CanUndo<V>(l: Log<V>) {
    l.active > 0 && l.stack != []
  }

  function Undid<V>(l: Log<V>): Log<V>
    requires CanUndo(l)
  {
    var top := |l.stack| - 1;
    l.(db := Undone(l.stack[top], l.db), stack := l.stack[..top], active := l.active - 1)
  }

  predicate CanMerge<V>(l: Log<V>) {
    l.active > 0 && ((l.active == 1 && |l.stack| == 1) || |l.stack| >= 2)
  }

  function MergedTop<V>(l: Log<V>): Log<V>
    requires CanMerge(l)
  {
    var n := |l.stack|;
    if l.active == 1 && n == 1 then l.(stack := [], active := 0)
    else l.(stack := l.stack[..n - 2] + [Merged(l.stack[n - 2], l.stack[n - 1])], active := l.active - 1)
  }

  /** A session ends by being merged or undone. */
  predicate CanClose<V>(l: Log<V>, keep: bool) {
    if keep then CanMerge(l) else CanUndo(l)
  }

  function Closed<V>(l: Log<V>, keep: bool): Log<V>
    requires CanClose(l, keep)
  {
    if keep then MergedTop(l) else Undid(l)
  }

  // ---------- the invariant of every run ----------

  function StateAfter<V>(l: Log<V>, snaps: seq<Db<V>>, i: nat): Db<V> {
    if i + 1 < |snaps| then snaps[i + 1] else l.db
  }

  /** `snaps[i]` is the state record i goes back to; each record explains the way to the next snapshot. */
  ghost predicate Chained<V>(l: Log<V>, snaps: seq<Db<V>>) {
    && |snaps| == |l.stack|
    && IdsBelowCounters(l.db)
    && forall i :: 0 <= i < |snaps| ==> Explains(snaps[i], l.stack[i], StateAfter(l, snaps, i))
  }

  lemma StartKeepsChain<V>(l: Log<V>, snaps: seq<Db<V>>)
    requires Chained(l, snaps)
    ensures Chained(Started(l), Trim(snaps, l.maxSize) + [l.db])
  {
    var l', s' := Started(l), Trim(snaps, l.maxSize) + [l.db];
    var cut := if |snaps| > l.maxSize then |snaps| - l.maxSize else 0;
    FreshRecordExplains(l.db);
    forall i | 0 <= i < |s'| ensures Explains(s'[i], l'.stack[i], StateAfter(l', s', i)) {
      if i < |s'| - 1 {
        assert Explains(snaps[i + cut], l.stack[i + cut], StateAfter(l, snaps, i + cut));
      }
    }
  }

  /** Where the chain of `l` ends once there is a record to write into. */
  function RecordingSnaps<V>(l: Log<V>, snaps: seq<Db<V>>): seq<Db<V>> {
    if l.stack == [] then [l.db] else snaps
  }

  lemma TopRecord<V>(l: Log<V>, snaps: seq<Db<V>>, l': Log<V>)
    requires Chained(l, snaps)
    requires var s := Recording(l).stack; var top := |s| - 1;
      && |l'.stack| == |s| && l'.stack[..top] == s[..top]
      && (Explains(RecordingSnaps(l, snaps)[top], s[top], l.db) ==>
           Explains(RecordingSnaps(l, snaps)[top], l'.stack[top], l'.db))
    ensures Chained(l', RecordingSnaps(l, snaps))
  {
    var s, s' := Recording(l).stack, RecordingSnaps(l, snaps);
    var top := |s| - 1;
    if l.stack == [] { FreshRecordExplains(l.db); }
    assert Explains(s'[top], s[top], l.db) by {
      if l.stack != [] { assert Explains(snaps[top], l.stack[top], StateAfter(l, snaps, top)); }
    }
    forall i | 0 <= i < |s'| ensures Explains(s'[i], l'.stack[i], StateAfter(l', s', i)) {
      if i < top {
        assert l'.stack[i] == l'.stack[..top][i] == s[..top][i];
        assert Explains(snaps[i], l.stack[i], StateAfter(l, snaps, i));
      }
    }
  }

  lemma CreateKeepsChain<V>(l: Log<V>, snaps: seq<Db<V>>, k: IndexKey, v: V)
    requires Chained(l, snaps) && k in l.db.nextIds
    ensures Chained(Created(l, k, v), RecordingSnaps(l, snaps))
  {
    var s := Recording(l).stack; var top := |s| - 1;
    if Explains(RecordingSnaps(l, snaps)[top], s[top], l.db) {
      CreateKeepsExplains(RecordingSnaps(l, snaps)[top], s[top], l.db, k, v);
    }
    TopRecord(l, snaps, Created(l, k, v));
  }

  lemma ModifyKeepsChain<V>(l: Log<V>, snaps: seq<Db<V>>, id: ObjectId, v: V)
    requires Chained(l, snaps) && id in l.db.objects
    ensures Chained(Modified(l, id, v), RecordingSnaps(l, snaps))
  {
    var s := Recording(l).stack; var top := |s| - 1;
    if Explains(RecordingSnaps(l, snaps)[top], s[top], l.db) {
      ModifyKeepsExplains(RecordingSnaps(l, snaps)[top], s[top], l.db, id, v);
    }
    TopRecord(l, snaps, Modified(l, id, v));
  }

  lemma RemoveKeepsChain<V>(l: Log<V>, snaps: seq<Db<V>>, id: ObjectId)
    requires Chained(l, snaps) && id in l.db.objects
    ensures Chained(Removed(l, id), RecordingSnaps(l, snaps))
  {
    var s := Recording(l).stack; var top := |s| - 1;
    if Explains(RecordingSnaps(l, snaps)[top], s[top], l.db) {
      RemoveKeepsExplains(RecordingSnaps(l, snaps)[top], s[top], l.db, id);
    }
    TopRecord(l, snaps, Removed(l, id));
  }

  /** Undoing the top record goes back to its snapshot, and the rest of the chain is untouched. */
  lemma UndoGoesBack<V>(l: Log<V>, snaps: seq<Db<V>>)
    requires Chained(l, snaps) && CanUndo(l)
    ensures Applicable(l.stack[|l.stack| - 1], l.db)
    ensures Undid(l).db == snaps[|snaps| - 1]
    ensures Chained(Undid(l), snaps[..|snaps| - 1])
  {
    var top, l', s' := |snaps| - 1, Undid(l), snaps[..|snaps| - 1];
    assert Explains(snaps[top], l.stack[top], StateAfter(l, snaps, top));
    UndoIsExact(snaps[top], l.stack[top], l.db);
    forall i | 0 <= i < |s'| ensures Explains(s'[i], l'.stack[i], StateAfter(l', s', i)) {
      assert Explains(snaps[i], l.stack[i], StateAfter(l, snaps, i));
    }
  }

  /** Merging drops the younger snapshot and leaves every object as it is. */
  lemma MergeKeepsChain<V>(l: Log<V>, snaps: seq<Db<V>>)
    requires Chained(l, snaps) && CanMerge(l)
    ensures MergedTop(l).db == l.db
    ensures Chained(MergedTop(l), snaps[..|snaps| - 1])
  {
    var n, l', s' := |snaps|, MergedTop(l), snaps[..|snaps| - 1];
    if n >= 2 {
      assert Explains(snaps[n - 2], l.stack[n - 2], StateAfter(l, snaps, n - 2));
      assert Explains(snaps[n - 1], l.stack[n - 1], StateAfter(l, snaps, n - 1));
      MergeExplains(snaps[n - 2], l.stack[n - 2], snaps[n - 1], l.stack[n - 1], l.db);
      forall i | 0 <= i < |s'| ensures Explains(s'[i], l'.stack[i], StateAfter(l', s', i)) {
        assert Explains(snaps[i], l.stack[i], StateAfter(l, snaps, i));
      }
    }
  }

  // ---------- runs with nested sessions ----------

  /** What a piece of chain logic does to the log; a nested session is merged or, if it fails, undone. */
  datatype Act<V> =
    | Create(k: IndexKey, v: V)
    | Modify(id: ObjectId, v: V)
    | Remove(id: ObjectId)
    | Session(body: seq<Act<V>>, keep: bool)

  /** None when a step throws: an unknown index or object, or a session that has lost its record. */
  function Run<V>(l: Log<V>, acts: seq<Act<V>>): Option<Log<V>>
    decreases acts
  {
    if acts == [] then Some(l)
    else match Step(l, acts[0])
      case None => None
      case Some(l1) => Run(l1, acts[1..])
  }

  function Step<V>(l: Log<V>, act: Act<V>): Option<Log<V>>
    decreases act
  {
    match act
    case Create(k, v) => if k in l.db.nextIds then Some(Created(l, k, v)) else None
    case Modify(id, v) => if id in l.db.objects then Some(Modified(l, id, v)) else None
    case Remove(id) => if id in l.db.objects then Some(Removed(l, id)) else None
    case Session(body, keep) =>
      match Run(Started(l), body)
      case None => None
      case Some(l1) =>
        if CanClose(l1, keep) then Some(Closed(l1, keep)) else None
  }

  /** How many sessions are open at once while the acts run. */
  function Depth<V>(acts: seq<Act<V>>): nat
    decreases acts
  {
    if acts == [] then 0 else Max(DepthOf(acts[0]), Depth(acts[1..]))
  }

  function DepthOf<V>(act: Act<V>): nat
    decreases act
  {
    if act.Session? then 1 + Depth(act.body) else 0
  }

  /** How many of `n` records remain after acts that nest `d` deep. */
  function Remaining(n: nat, limit: nat, d: nat): nat
    requires d <= limit
  {
    if d == 0 then n else Min(n, limit - d + 1)
  }

  function Newest<T>(s: seq<T>, n: nat): seq<T>
    requires n <= |s|
  {
    s[|s| - n..]
  }

  /** A run inside a session that nests no deeper than the size limit leaves exactly the newest
      snapshots, among them the session's own, so that every record still goes back where it should. */
  lemma {:induction false} RunKeepsNewest<V>(l: Log<V>, snaps: seq<Db<V>>, acts: seq<Act<V>>)
    requires Chained(l, snaps) && l.stack != [] && l.active > 0 && Depth(acts) <= l.maxSize
    requires Run(l, acts).Some?
    ensures var l' := Run(l, acts).value;
      && l'.active == l.active && l'.maxSize == l.maxSize
      && Chained(l', Newest(snaps, Remaining(|snaps|, l.maxSize, Depth(acts))))
    decreases acts
  {
    if acts == [] {
      assert Newest(snaps, |snaps|) == snaps;
    } else {
      StepKeepsNewest(l, snaps, acts[0]);
      var s1 := Newest(snaps, Remaining(|snaps|, l.maxSize, DepthOf(acts[0])));
      RunKeepsNewest(Step(l, acts[0]).value, s1, acts[1..]);
      NewestTwice(snaps, l.maxSize, DepthOf(acts[0]), Depth(acts[1..]));
    }
  }

  lemma NewestTwice<T>(snaps: seq<T>, limit: nat, d: nat, e: nat)
    requires d <= limit && e <= limit
    ensures var s1 := Newest(snaps, Remaining(|snaps|, limit, d));
      Newest(s1, Remaining(|s1|, limit, e)) == Newest(snaps, Remaining(|snaps|, limit, Max(d, e)))
  {
  }

  lemma {:induction false} StepKeepsNewest<V>(l: Log<V>, snaps: seq<Db<V>>, act: Act<V>)
    requires Chained(l, snaps) && l.stack != [] && l.active > 0 && DepthOf(act) <= l.maxSize
    requires Step(l, act).Some?
    ensures var l' := Step(l, act).value;
      && l'.active == l.active && l'.maxSize == l.maxSize
      && Chained(l', Newest(snaps, Remaining(|snaps|, l.maxSize, DepthOf(act))))
    decreases act
  {
    assert Newest(snaps, |snaps|) == snaps;
    match act
    case Create(k, v) => CreateKeepsChain(l, snaps, k, v);
    case Modify(id, v) => ModifyKeepsChain(l, snaps, id, v);
    case Remove(id) => RemoveKeepsChain(l, snaps, id);
    case Session(body, keep) => SessionKeepsNewest(l, snaps, body, keep, Run(Started(l), body).value);
  }

  lemma {:induction false} SessionKeepsNewest<V>(l: Log<V>, snaps: seq<Db<V>>, body: seq<Act<V>>, keep: bool,
      l1: Log<V>)
    requires Chained(l, snaps) && 1 + Depth(body) <= l.maxSize
    requires Run(Started(l), body) == Some(l1) && CanClose(l1, keep)
    requires keep ==> l.active > 0
    ensures Closed(l1, keep).active == l.active && Closed(l1, keep).maxSize == l.maxSize
    ensures Chained(Closed(l1, keep), Newest(snaps, Remaining(|snaps|, l.maxSize, 1 + Depth(body))))
    decreases Session(body, keep), 0
  {
    var l0, s0 := Started(l), Trim(snaps, l.maxSize) + [l.db];
    assert Chained(l0, s0) && l0.stack != [] && l0.active == l.active + 1 && l0.maxSize == l.maxSize by {
      StartKeepsChain(l, snaps);
    }
    assert l1.active == l0.active && l1.maxSize == l0.maxSize
        && Chained(l1, Newest(s0, Remaining(|s0|, l.maxSize, Depth(body)))) by {
      RunKeepsNewest(l0, s0, body);
    }
    SessionEndKeepsNewest(l, snaps, Depth(body), keep, l1);
  }

  lemma SessionEndKeepsNewest<V>(l: Log<V>, snaps: seq<Db<V>>, d: nat, keep: bool, l1: Log<V>)
    requires 1 + d <= l.maxSize && CanClose(l1, keep) && (keep ==> l.active > 0)
    requires l1.active == l.active + 1 && l1.maxSize == l.maxSize
    requires var s0 := Trim(snaps, l.maxSize) + [l.db]; Chained(l1, Newest(s0, Remaining(|s0|, l.maxSize, d)))
    ensures Closed(l1, keep).active == l.active && Closed(l1, keep).maxSize == l.maxSize
    ensures Chained(Closed(l1, keep), Newest(snaps, Remaining(|snaps|, l.maxSize, 1 + d)))
  {
    var s0 := Trim(snaps, l.maxSize) + [l.db];
    CloseKeepsChain(l1, Newest(s0, Remaining(|s0|, l.maxSize, d)), keep);
    SessionSnaps(snaps, l.db, l.maxSize, d);
  }

  lemma CloseKeepsChain<V>(l: Log<V>, snaps: seq<Db<V>>, keep: bool)
    requires Chained(l, snaps) && CanClose(l, keep)
    requires keep ==> l.active > 1
    ensures |snaps| > 0 && Chained(Closed(l, keep), snaps[..|snaps| - 1])
    ensures Closed(l, keep).active == l.active - 1 && Closed(l, keep).maxSize == l.maxSize
  {
    if keep { MergeKeepsChain(l, snaps); } else { UndoGoesBack(l, snaps); }
  }

  /** Opening a session, nesting `d` more in it and closing it again leaves the newest snapshots. */
  lemma SessionSnaps<T>(snaps: seq<T>, now: T, limit: nat, d: nat)
    requires 1 + d <= limit
    ensures var s0 := Trim(snaps, limit) + [now];
      var s1 := Newest(s0, Remaining(|s0|, limit, d));
      |s1| > 0 && s1[..|s1| - 1] == Newest(snaps, Remaining(|snaps|, limit, 1 + d))
  {
  }

  /** Undo is exact: whatever a session did, and however its nested sessions ended, undoing it restores
      every object and every counter, provided it nested no more sessions than the size limit. */
  lemma SessionIsExactlyUndone<V>(l: Log<V>, snaps: seq<Db<V>>, acts: seq<Act<V>>)
    requires Chained(l, snaps) && Depth(acts) <= l.maxSize
    requires Run(Started(l), acts).Some?
    ensures Step(l, Session(acts, false)).Some?
    ensures Step(l, Session(acts, false)).value.db == l.db
  {
    var l0, s0 := Started(l), Trim(snaps, l.maxSize) + [l.db];
    StartKeepsChain(l, snaps);
    RunKeepsNewest(l0, s0, acts);
    var l1 := Run(l0, acts).value;
    UndoGoesToStart(l, snaps, Depth(acts), l1);
    SessionStep(l, acts, l1);
  }

  lemma SessionStep<V>(l: Log<V>, acts: seq<Act<V>>, l1: Log<V>)
    requires Run(Started(l), acts) == Some(l1) && CanUndo(l1) && Applicable(l1.stack[|l1.stack| - 1], l1.db)
    ensures Step(l, Session(acts, false)) == Some(Undid(l1))
  {
  }

  lemma UndoGoesToStart<V>(l: Log<V>, snaps: seq<Db<V>>, d: nat, l1: Log<V>)
    requires d <= l.maxSize && l1.active > 0
    requires var s0 := Trim(snaps, l.maxSize) + [l.db]; Chained(l1, Newest(s0, Remaining(|s0|, l.maxSize, d)))
    ensures CanUndo(l1) && Applicable(l1.stack[|l1.stack| - 1], l1.db) && Undid(l1).db == l.db
  {
    var s0 := Trim(snaps, l.maxSize) + [l.db];
    UndoGoesBack(l1, Newest(s0, Remaining(|s0|, l.maxSize, d)));
  }

  // ---------- the depth condition is tight ----------

  /** `k` sessions, one inside the other. */
  function Nest<V>(k: nat): seq<Act<V>> {
    if k == 0 then [] else [Session(Nest(k - 1), false)]
  }

  lemma {:induction false} NestTrims<V>(l: Log<V>, k: nat)
    requires k <= l.maxSize + 1
    ensures Run(l, Nest(k)).Some?
    ensures var l' := Run(l, Nest(k)).value;
      && l'.active == l.active && l'.maxSize == l.maxSize
      && |l'.stack| == if k == 0 then |l.stack| else Min(|l.stack|, l.maxSize + 1 - k)
    decreases k
  {
    if k > 0 { NestTrims(Started(l), k - 1); }
  }

  /** A session around k nested ones can be undone if and only if k is within the size limit: the
      session one level too deep pushes the outermost record off the front of the stack. */
  lemma {:induction false} NestUndoneIffWithinLimit<V>(l: Log<V>, k: nat)
    ensures Step(l, Session(Nest(k), false)).Some? <==> k <= l.maxSize
    decreases k
  {
    if k <= l.maxSize + 1 {
      NestTrims(Started(l), k);
    } else {
      NestUndoneIffWithinLimit(Started(l), k - 1);
    }
  }
}
