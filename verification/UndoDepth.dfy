/**
 * How deep sessions may nest (libraries/db/undo_database.cpp:33-46): within the size limit a session's own record
 * survives whatever happens in it, and beyond the limit nothing is left of the records there were.
 */
module UndoDepth {
  import opened Arithmetic
  import opened Common
  import opened UndoLog
  import opened UndoSessions

  // ---------- following one record ----------

  /** A mark that no change touches: a counter of an index that the database does not have. */
  function Marked<V>(r: UndoState<V>, w: IndexKey): UndoState<V> {
    r.(oldNextIds := r.oldNextIds[w := 0])
  }

  /** The log with a mark on the record `p` below the top, if there is one. */
  function MarkAt<V>(l: Log<V>, p: nat, w: IndexKey): Log<V> {
    if p < |l.stack| then
      var i := |l.stack| - 1 - p;
      l.(stack := l.stack[i := Marked(l.stack[i], w)])
    else l
  }

  function MarkedResult<V>(r: Option<Log<V>>, p: nat, w: IndexKey): Option<Log<V>> {
    match r
    case None => None
    case Some(l) => Some(MarkAt(l, p, w))
  }

  /** No record and no counter has to do with the marking index. */
  ghost predicate Clean<V>(l: Log<V>, w: IndexKey) {
    w !in l.db.nextIds && forall i :: 0 <= i < |l.stack| ==> w !in l.stack[i].oldNextIds
  }

  /** What a run within the limit leaves alone, and how many records it leaves. */
  ghost predicate Settled<V>(l: Log<V>, l': Log<V>, d: nat, w: IndexKey)
    requires d <= l.maxSize
  {
    && l'.active == l.active && l'.maxSize == l.maxSize && Clean(l', w)
    && |l'.stack| == Remaining(|l.stack|, l.maxSize, d)
  }

  lemma MarksCommute<V>(r: UndoState<V>, w: IndexKey, id: ObjectId, was: V)
    ensures id.index != w ==> OnCreate(Marked(r, w), id) == Marked(OnCreate(r, id), w)
    ensures OnModify(Marked(r, w), id, was) == Marked(OnModify(r, id, was), w)
    ensures OnRemove(Marked(r, w), id, was) == Marked(OnRemove(r, id, was), w)
  {
    if id.index != w {
      assert r.oldNextIds[w := 0][id.index := id.instance] == r.oldNextIds[id.index := id.instance][w := 0];
    }
  }

  lemma MarksMerge<V>(a: UndoState<V>, b: UndoState<V>, w: IndexKey)
    ensures Merged(Marked(a, w), b) == Marked(Merged(a, b), w)
  {
    assert b.oldNextIds + a.oldNextIds[w := 0] == (b.oldNextIds + a.oldNextIds)[w := 0];
  }

  lemma StartKeepsMark<V>(l: Log<V>, p: nat, w: IndexKey)
    ensures Started(MarkAt(l, p, w)) == MarkAt(Started(l), p + 1, w)
  {
    var t := Trim(l.stack, l.maxSize);
    if p < |t| {
      var i := |t| - 1 - p;
      assert Trim(MarkAt(l, p, w).stack, l.maxSize) == t[i := Marked(t[i], w)];
    } else {
      assert Trim(MarkAt(l, p, w).stack, l.maxSize) == t;
    }
  }

  lemma CloseKeepsMark<V>(l: Log<V>, keep: bool, p: nat, w: IndexKey)
    requires l.active > 1 && CanClose(l, keep)
    ensures CanClose(MarkAt(l, p + 1, w), keep)
    ensures Closed(MarkAt(l, p + 1, w), keep) == MarkAt(Closed(l, keep), p, w)
  {
    var n := |l.stack|;
    if keep && p == 0 { MarksMerge(l.stack[n - 2], l.stack[n - 1], w); }
    assert Closed(MarkAt(l, p + 1, w), keep).stack == MarkAt(Closed(l, keep), p, w).stack;
  }

  lemma CloseStaysClean<V>(l: Log<V>, keep: bool, w: IndexKey)
    requires l.active > 1 && CanClose(l, keep) && Clean(l, w)
    ensures Clean(Closed(l, keep), w)
    ensures |Closed(l, keep).stack| == |l.stack| - 1 && Closed(l, keep).active == l.active - 1
    ensures Closed(l, keep).maxSize == l.maxSize
  {
  }

  /** Writing into the top record leaves a mark where it is. */
  lemma TopKeepsMark<V>(l: Log<V>, p: nat, w: IndexKey, db: Db<V>, r: UndoState<V>)
    requires l.stack != []
    ensures var top, k := |l.stack| - 1, MarkAt(l, p, w);
      MarkAt(l.(db := db, stack := l.stack[top := r]), p, w)
        == k.(db := db, stack := k.stack[top := if p == 0 then Marked(r, w) else r])
  {
  }

  lemma CreateKeepsMark<V>(l: Log<V>, k: IndexKey, v: V, p: nat, w: IndexKey)
    requires Clean(l, w) && l.stack != [] && k in l.db.nextIds
    ensures Created(MarkAt(l, p, w), k, v) == MarkAt(Created(l, k, v), p, w)
    ensures Settled(l, Created(l, k, v), 0, w)
  {
    var top, id := l.stack[|l.stack| - 1], ObjectId(k, l.db.nextIds[k]);
    MarksCommute(top, w, id, v);
    TopKeepsMark(l, p, w, CreateIn(l.db, k, v), OnCreate(top, id));
  }

  lemma ModifyKeepsMark<V>(l: Log<V>, id: ObjectId, v: V, p: nat, w: IndexKey)
    requires Clean(l, w) && l.stack != [] && id in l.db.objects
    ensures Modified(MarkAt(l, p, w), id, v) == MarkAt(Modified(l, id, v), p, w)
    ensures Settled(l, Modified(l, id, v), 0, w)
  {
    var top := l.stack[|l.stack| - 1];
    MarksCommute(top, w, id, l.db.objects[id]);
    TopKeepsMark(l, p, w, ModifyIn(l.db, id, v), OnModify(top, id, l.db.objects[id]));
  }

  lemma RemoveKeepsMark<V>(l: Log<V>, id: ObjectId, p: nat, w: IndexKey)
    requires Clean(l, w) && l.stack != [] && id in l.db.objects
    ensures Removed(MarkAt(l, p, w), id) == MarkAt(Removed(l, id), p, w)
    ensures Settled(l, Removed(l, id), 0, w)
  {
    var top := l.stack[|l.stack| - 1];
    MarksCommute(top, w, id, l.db.objects[id]);
    TopKeepsMark(l, p, w, RemoveIn(l.db, id), OnRemove(top, id, l.db.objects[id]));
  }

  /** A change is written into the top record, marked or not. */
  lemma ChangeKeepsMark<V>(l: Log<V>, act: Act<V>, p: nat, w: IndexKey)
    requires Clean(l, w) && l.stack != [] && !act.Session?
    ensures Step(MarkAt(l, p, w), act) == MarkedResult(Step(l, act), p, w)
    ensures Step(l, act).Some? ==> Settled(l, Step(l, act).value, 0, w)
  {
    match act
    case Create(k, v) => if k in l.db.nextIds { CreateKeepsMark(l, k, v, p, w); }
    case Modify(id, v) => if id in l.db.objects { ModifyKeepsMark(l, id, v, p, w); }
    case Remove(id) => if id in l.db.objects { RemoveKeepsMark(l, id, p, w); }
  }

  /** A run that nests no deeper than the limit treats a marked record as an unmarked one: at its end the mark is on the
      record in the same place, if the run has left that many. */
  lemma {:induction false} RunKeepsMark<V>(l: Log<V>, acts: seq<Act<V>>, p: nat, w: IndexKey)
    requires Clean(l, w) && l.stack != [] && l.active > 0 && Depth(acts) <= l.maxSize
    ensures Run(MarkAt(l, p, w), acts) == MarkedResult(Run(l, acts), p, w)
    ensures Run(l, acts).Some? ==> Settled(l, Run(l, acts).value, Depth(acts), w)
    decreases acts
  {
    if acts != [] {
      StepKeepsMark(l, acts[0], p, w);
      if Step(l, acts[0]).Some? {
        RunKeepsMark(Step(l, acts[0]).value, acts[1..], p, w);
      }
    }
  }

  lemma {:induction false} StepKeepsMark<V>(l: Log<V>, act: Act<V>, p: nat, w: IndexKey)
    requires Clean(l, w) && l.stack != [] && l.active > 0 && DepthOf(act) <= l.maxSize
    ensures Step(MarkAt(l, p, w), act) == MarkedResult(Step(l, act), p, w)
    ensures Step(l, act).Some? ==> Settled(l, Step(l, act).value, DepthOf(act), w)
    decreases act
  {
    if act.Session? {
      StartKeepsMark(l, p, w);
      RunKeepsMark(Started(l), act.body, p + 1, w);
      SessionKeepsMark(l, Run(Started(l), act.body), Depth(act.body), act.keep, p, w);
      StepIsResult(l, act.body, act.keep);
      StepIsResult(MarkAt(l, p, w), act.body, act.keep);
    } else {
      ChangeKeepsMark(l, act, p, w);
    }
  }

  lemma SessionKeepsMark<V>(l: Log<V>, r: Option<Log<V>>, d: nat, keep: bool, p: nat, w: IndexKey)
    requires l.active > 0 && 1 + d <= l.maxSize && l.stack != []
    requires r.Some? ==> Settled(Started(l), r.value, d, w)
    ensures SessionResult(MarkedResult(r, p + 1, w), keep) == MarkedResult(SessionResult(r, keep), p, w)
    ensures SessionResult(r, keep).Some? ==> Settled(l, SessionResult(r, keep).value, 1 + d, w)
  {
    if r.Some? { SessionEndKeepsMark(l, r.value, d, keep, p, w); }
  }

  lemma SessionEndKeepsMark<V>(l: Log<V>, l1: Log<V>, d: nat, keep: bool, p: nat, w: IndexKey)
    requires l.active > 0 && 1 + d <= l.maxSize && l.stack != [] && Settled(Started(l), l1, d, w)
    ensures CanClose(l1, keep) && CanClose(MarkAt(l1, p + 1, w), keep)
    ensures Closed(MarkAt(l1, p + 1, w), keep) == MarkAt(Closed(l1, keep), p, w)
    ensures Settled(l, Closed(l1, keep), 1 + d, w)
  {
    CloseKeepsMark(l1, keep, p, w);
    CloseStaysClean(l1, keep, w);
  }

  // ---------- beyond the limit ----------

  /** Two logs that differ in their older records only. */
  ghost predicate Agree<V>(l: Log<V>, k: Log<V>, m: nat) {
    && k == l.(stack := k.stack) && m <= |l.stack| && m <= |k.stack|
    && Newest(l.stack, m) == Newest(k.stack, m)
  }

  /** The results of two runs that nest `d` deep: both fail, or they agree, beyond the limit altogether. */
  ghost predicate SameResult<V>(r: Option<Log<V>>, q: Option<Log<V>>, limit: nat, m: nat, d: nat) {
    && (r.Some? <==> q.Some?)
    && (r.Some? ==> if d > limit then r == q else Agree(r.value, q.value, Remaining(m, limit, d)))
  }

  lemma StartAgrees<V>(l: Log<V>, k: Log<V>, m: nat)
    requires Agree(l, k, m) && l.stack != [] && k.stack != []
    ensures Agree(Started(l), Started(k), Min(m, l.maxSize) + 1)
  {
    StartShares(l.stack, k.stack, m, l.maxSize, EmptyState<V>());
  }

  lemma StartShares<T>(s: seq<T>, t: seq<T>, m: nat, limit: nat, e: T)
    requires m <= |s| && m <= |t| && Newest(s, m) == Newest(t, m)
    ensures var n := Min(m, limit) + 1;
      && n <= |Trim(s, limit) + [e]| && n <= |Trim(t, limit) + [e]|
      && Newest(Trim(s, limit) + [e], n) == Newest(Trim(t, limit) + [e], n)
  {
    var n := Min(m, limit);
    NewestOfTrim(s, m, limit);
    NewestOfTrim(t, m, limit);
    NewestAppend(Trim(s, limit), n, e);
    NewestAppend(Trim(t, limit), n, e);
  }

  lemma NewestAppend<T>(s: seq<T>, n: nat, e: T)
    requires n <= |s|
    ensures Newest(s + [e], n + 1) == Newest(s, n) + [e]
  {
  }

  lemma NewestOfTrim<T>(s: seq<T>, m: nat, limit: nat)
    requires m <= |s|
    ensures var n := Min(m, limit);
      n <= |Trim(s, limit)| && Newest(Trim(s, limit), n) == Newest(Newest(s, m), n)
  {
  }

  /** Logs that agree on all their records are the same. */
  lemma AgreeAltogether<V>(l: Log<V>, k: Log<V>, m: nat)
    requires Agree(l, k, m) && |l.stack| == m == |k.stack|
    ensures l == k
  {
    assert Newest(l.stack, m) == l.stack && Newest(k.stack, m) == k.stack;
  }

  /** A change in two logs that agree: the top records are written into alike, also when only the top is shared. */
  lemma ChangeAgrees<V>(l: Log<V>, k: Log<V>, m: nat, act: Act<V>)
    requires Agree(l, k, m) && l.stack != [] && k.stack != [] && !act.Session?
    ensures SameResult(Step(l, act), Step(k, act), l.maxSize, m, 0)
  {
    if m > 0 {
      assert Newest(l.stack, m)[m - 1] == l.stack[|l.stack| - 1];
      assert Newest(k.stack, m)[m - 1] == k.stack[|k.stack| - 1];
    }
    if Step(l, act).Some? {
      var l', k' := Step(l, act).value, Step(k, act).value;
      TopAgrees(l, k, l', k', m);
    }
  }

  lemma TopAgrees<V>(l: Log<V>, k: Log<V>, l': Log<V>, k': Log<V>, m: nat)
    requires Agree(l, k, m) && l.stack != [] && k.stack != []
    requires k' == l'.(stack := k'.stack)
    requires |l'.stack| == |l.stack| && l'.stack[..|l.stack| - 1] == l.stack[..|l.stack| - 1]
    requires |k'.stack| == |k.stack| && k'.stack[..|k.stack| - 1] == k.stack[..|k.stack| - 1]
    requires m > 0 ==> l'.stack[|l.stack| - 1] == k'.stack[|k.stack| - 1]
    ensures Agree(l', k', m)
  {
    forall i | 0 <= i < m ensures Newest(l'.stack, m)[i] == Newest(k'.stack, m)[i] {
      if i < m - 1 {
        assert Newest(l'.stack, m)[i] == l'.stack[..|l.stack| - 1][|l.stack| - m + i] == Newest(l.stack, m)[i];
        assert Newest(k'.stack, m)[i] == k'.stack[..|k.stack| - 1][|k.stack| - m + i] == Newest(k.stack, m)[i];
      }
    }
  }

  /** Closing takes the top record, which both have. */
  lemma CloseAgrees<V>(l: Log<V>, k: Log<V>, m: nat, keep: bool)
    requires Agree(l, k, m) && m > 0 && l.active > 1
    requires keep ==> |l.stack| >= 2 && |k.stack| >= 2
    ensures CanClose(l, keep) && CanClose(k, keep)
    ensures Agree(Closed(l, keep), Closed(k, keep), m - 1)
  {
    SharedRecord(l.stack, k.stack, m, 0);
    if keep {
      MergeAgrees(l, k, m);
    } else {
      SharedBelow(l.stack, k.stack, m);
    }
  }

  lemma SharedRecord<T>(s: seq<T>, t: seq<T>, m: nat, p: nat)
    requires p < m <= |s| && m <= |t| && Newest(s, m) == Newest(t, m)
    ensures s[|s| - 1 - p] == t[|t| - 1 - p]
  {
    assert Newest(s, m)[m - 1 - p] == s[|s| - 1 - p] && Newest(t, m)[m - 1 - p] == t[|t| - 1 - p];
  }

  lemma SharedBelow<T>(s: seq<T>, t: seq<T>, m: nat)
    requires 0 < m <= |s| && m <= |t| && Newest(s, m) == Newest(t, m)
    ensures Newest(s[..|s| - 1], m - 1) == Newest(t[..|t| - 1], m - 1)
  {
    assert Newest(s[..|s| - 1], m - 1) == Newest(s, m)[..m - 1];
    assert Newest(t[..|t| - 1], m - 1) == Newest(t, m)[..m - 1];
  }

  lemma MergeAgrees<V>(l: Log<V>, k: Log<V>, m: nat)
    requires Agree(l, k, m) && m > 0 && l.active > 1 && |l.stack| >= 2 && |k.stack| >= 2
    ensures Agree(MergedTop(l), MergedTop(k), m - 1)
  {
    SharedRecord(l.stack, k.stack, m, 0);
    if m >= 2 {
      SharedRecord(l.stack, k.stack, m, 1);
      SharedUnderTop(l.stack, k.stack, m, Merged(l.stack[|l.stack| - 2], l.stack[|l.stack| - 1]));
    }
  }

  /** Replacing the two top elements by the same one. */
  lemma SharedUnderTop<T>(s: seq<T>, t: seq<T>, m: nat, r: T)
    requires 2 <= m <= |s| && m <= |t| && Newest(s, m) == Newest(t, m)
    ensures Newest(s[..|s| - 2] + [r], m - 1) == Newest(t[..|t| - 2] + [r], m - 1)
  {
    SharedBelow(s, t, m);
    SharedBelow(s[..|s| - 1], t[..|t| - 1], m - 1);
    assert s[..|s| - 1][..|s| - 2] == s[..|s| - 2] && t[..|t| - 1][..|t| - 2] == t[..|t| - 2];
    assert Newest(s[..|s| - 2] + [r], m - 1) == Newest(s[..|s| - 2], m - 2) + [r];
    assert Newest(t[..|t| - 2] + [r], m - 1) == Newest(t[..|t| - 2], m - 2) + [r];
  }

  /** How many records a run within the limit leaves. */
  ghost predicate Sized<V>(l: Log<V>, l': Log<V>, d: nat)
    requires d <= l.maxSize
  {
    l'.active == l.active && l'.maxSize == l.maxSize && |l'.stack| == Remaining(|l.stack|, l.maxSize, d)
  }

  lemma {:induction false} RunSizes<V>(l: Log<V>, acts: seq<Act<V>>)
    requires l.stack != [] && l.active > 0 && Depth(acts) <= l.maxSize && Run(l, acts).Some?
    ensures Sized(l, Run(l, acts).value, Depth(acts))
    decreases acts
  {
    if acts != [] {
      StepSizes(l, acts[0]);
      RunSizes(Step(l, acts[0]).value, acts[1..]);
    }
  }

  lemma {:induction false} StepSizes<V>(l: Log<V>, act: Act<V>)
    requires l.stack != [] && l.active > 0 && DepthOf(act) <= l.maxSize && Step(l, act).Some?
    ensures Sized(l, Step(l, act).value, DepthOf(act))
    decreases act
  {
    if act.Session? { RunSizes(Started(l), act.body); }
  }

  /** Two runs of the same acts that begin with different older records. */
  lemma {:induction false} RunAgrees<V>(l: Log<V>, k: Log<V>, m: nat, acts: seq<Act<V>>)
    requires Agree(l, k, m) && l.stack != [] && k.stack != [] && l.active > 0
    ensures SameResult(Run(l, acts), Run(k, acts), l.maxSize, m, Depth(acts))
    decreases acts
  {
    if acts != [] {
      var d, e := DepthOf(acts[0]), Depth(acts[1..]);
      StepAgrees(l, k, m, acts[0]);
      if Step(l, acts[0]).Some? && d <= l.maxSize {
        StepSizes(l, acts[0]);
        StepSizes(k, acts[0]);
        RunAgrees(Step(l, acts[0]).value, Step(k, acts[0]).value, Remaining(m, l.maxSize, d), acts[1..]);
      }
    }
  }

  lemma {:induction false} StepAgrees<V>(l: Log<V>, k: Log<V>, m: nat, act: Act<V>)
    requires Agree(l, k, m) && l.stack != [] && k.stack != [] && l.active > 0
    ensures SameResult(Step(l, act), Step(k, act), l.maxSize, m, DepthOf(act))
    decreases act
  {
    if act.Session? {
      StartAgrees(l, k, m);
      RunAgrees(Started(l), Started(k), Min(m, l.maxSize) + 1, act.body);
      BodySizes(l, act.body);
      BodySizes(k, act.body);
      SessionAgrees(l, k, m, Depth(act.body), act.keep, Run(Started(l), act.body), Run(Started(k), act.body));
      StepIsResult(l, act.body, act.keep);
      StepIsResult(k, act.body, act.keep);
    } else {
      ChangeAgrees(l, k, m, act);
    }
  }

  lemma BodySizes<V>(l: Log<V>, body: seq<Act<V>>)
    requires l.active > 0
    ensures Run(Started(l), body).Some? && Depth(body) <= l.maxSize ==>
      Sized(Started(l), Run(Started(l), body).value, Depth(body))
  {
    if Run(Started(l), body).Some? && Depth(body) <= l.maxSize { RunSizes(Started(l), body); }
  }

  lemma StepIsResult<V>(l: Log<V>, body: seq<Act<V>>, keep: bool)
    ensures Step(l, Session(body, keep)) == SessionResult(Run(Started(l), body), keep)
  {
  }

  /** A session's result from that of its body. */
  function SessionResult<V>(r: Option<Log<V>>, keep: bool): Option<Log<V>> {
    match r
    case None => None
    case Some(l) => if CanClose(l, keep) then Some(Closed(l, keep)) else None
  }

  lemma SessionAgrees<V>(l: Log<V>, k: Log<V>, m: nat, d: nat, keep: bool, r: Option<Log<V>>, q: Option<Log<V>>)
    requires Agree(l, k, m) && l.stack != [] && k.stack != [] && l.active > 0
    requires SameResult(r, q, l.maxSize, Min(m, l.maxSize) + 1, d)
    requires r.Some? && d <= l.maxSize ==> Sized(Started(l), r.value, d) && Sized(Started(k), q.value, d)
    ensures SameResult(SessionResult(r, keep), SessionResult(q, keep), l.maxSize, m, 1 + d)
  {
    if r.Some? && d <= l.maxSize {
      SessionEndAgrees(l, k, m, r.value, q.value, d, keep);
    }
  }

  /** At the limit only the session's own record is left inside it, and both logs have the same. */
  lemma SessionEndAgrees<V>(l: Log<V>, k: Log<V>, m: nat, l1: Log<V>, k1: Log<V>, d: nat, keep: bool)
    requires l.stack != [] && k.stack != [] && l.active > 0 && d <= l.maxSize && k.maxSize == l.maxSize
    requires k.active == l.active
    requires m <= |l.stack| && m <= |k.stack|
    requires Sized(Started(l), l1, d) && Sized(Started(k), k1, d)
    requires Agree(l1, k1, Remaining(Min(m, l.maxSize) + 1, l.maxSize, d))
    ensures CanClose(l1, keep) <==> CanClose(k1, keep)
    ensures CanClose(l1, keep) ==>
      if 1 + d > l.maxSize then Closed(l1, keep) == Closed(k1, keep)
      else Agree(Closed(l1, keep), Closed(k1, keep), Remaining(m, l.maxSize, 1 + d))
  {
    var n := Remaining(Min(m, l.maxSize) + 1, l.maxSize, d);
    if d == l.maxSize {
      AgreeAltogether(l1, k1, n);
    } else {
      CloseAgrees(l1, k1, n, keep);
    }
  }

  // ---------- exactly when the own record survives ----------

  /** Within a session, the outcome of a run depends on the session's own record, where a mark on it is found again,
      if and only if the run nests no deeper than the limit. Beyond it the outcome is the same whatever records
      there were. */
  lemma OwnRecordSurvives<V>(l: Log<V>, acts: seq<Act<V>>, w: IndexKey)
    requires Clean(l, w) && l.stack != [] && l.active > 0 && Run(l, acts).Some?
    ensures Depth(acts) <= l.maxSize <==> Run(MarkAt(l, 0, w), acts) == MarkedResult(Run(l, acts), 0, w) != Run(l, acts)
    ensures Depth(acts) > l.maxSize ==> forall k: Log<V> | OnlyRecordsDiffer(l, k) :: Run(k, acts) == Run(l, acts)
  {
    if Depth(acts) <= l.maxSize {
      RunKeepsMark(l, acts, 0, w);
      MarkShows(Run(l, acts).value, w);
    } else {
      forall k: Log<V> | OnlyRecordsDiffer(l, k) ensures Run(k, acts) == Run(l, acts) { RunAgrees(l, k, 0, acts); }
      assert OnlyRecordsDiffer(l, MarkAt(l, 0, w));
    }
  }

  ghost predicate OnlyRecordsDiffer<V>(l: Log<V>, k: Log<V>) {
    k == l.(stack := k.stack) && k.stack != []
  }

  lemma MarkShows<V>(l: Log<V>, w: IndexKey)
    requires Clean(l, w) && l.stack != []
    ensures MarkAt(l, 0, w) != l
  {
    var top := |l.stack| - 1;
    assert w in MarkAt(l, 0, w).stack[top].oldNextIds;
  }

  // ---------- a silent loss ----------

  /** A session that changes something, nests one level too deep and changes something again is undone without a
      failure, but not to its beginning: only what came after the deep nest is taken back. */
  lemma LossIsSilent<V>(l: Log<V>, snaps: seq<Db<V>>, k: IndexKey, v: V, w: V)
    requires Chained(l, snaps) && k in l.db.nextIds
    ensures var acts := [Create(k, v)] + ([Session(Nest(l.maxSize), false)] + [Create(k, w)]);
      && Depth(acts) == l.maxSize + 1
      && Step(l, Session(acts, false)).Some?
      && Step(l, Session(acts, false)).value.db == CreateIn(l.db, k, v) != l.db
  {
    var l0, s0 := Started(l), Trim(snaps, l.maxSize) + [l.db];
    StartKeepsChain(l, snaps);
    CreateKeepsChain(l0, s0, k, v);
    var l1 := Created(l0, k, v);
    NestDepth<V>(l.maxSize);
    var l2 := DeepNest(l1, RecordingSnaps(l0, s0));
    FreshUndo(l2, k, w);
    var deep, l3 := Session(Nest<V>(l.maxSize), false), Created(l2, k, w);
    OneAct(l2, Create(k, w));
    FirstAct(l1, deep, [Create(k, w)], l2);
    FirstAct(l0, Create(k, v), [deep] + [Create(k, w)], l1);
    UndoneSession(l, [Create(k, v)] + ([deep] + [Create(k, w)]), l3);
    assert k in l.db.nextIds && CreateIn(l.db, k, v).nextIds[k] == l.db.nextIds[k] + 1;
  }

  lemma UndoneSession<V>(l: Log<V>, acts: seq<Act<V>>, l1: Log<V>)
    requires Run(Started(l), acts) == Some(l1) && CanUndo(l1)
    ensures Step(l, Session(acts, false)) == Some(Undid(l1))
  {
  }

  /** A nest that is one level too deep changes no object and leaves no record. */
  lemma DeepNest<V>(l: Log<V>, snaps: seq<Db<V>>) returns (l': Log<V>)
    requires Chained(l, snaps)
    ensures Step(l, Session(Nest(l.maxSize), false)) == Some(l')
    ensures l'.stack == [] && l'.db == l.db && l'.active == l.active && l'.maxSize == l.maxSize
  {
    NestDepth<V>(l.maxSize);
    NestTrims(Started(l), l.maxSize);
    SessionIsExactlyUndone(l, snaps, Nest(l.maxSize));
    l' := Step(l, Session(Nest(l.maxSize), false)).value;
    NestTrims(l, l.maxSize + 1);
    OneAct(l, Session(Nest(l.maxSize), false));
  }

  lemma {:induction false} NestDepth<V>(k: nat)
    ensures Depth<V>(Nest(k)) == k
  {
    if k > 0 { NestDepth<V>(k - 1); }
  }

  lemma OneAct<V>(l: Log<V>, act: Act<V>)
    ensures Run(l, [act]) == Step(l, act) && Depth([act]) == DepthOf(act)
  {
    assert Depth([act][1..]) == 0;
    if Step(l, act).Some? { assert [act][1..] == [] && Run(Step(l, act).value, []) == Step(l, act); }
  }

  /** On an empty stack the hook pushes a record that knows nothing of what was before. */
  lemma FreshUndo<V>(l: Log<V>, k: IndexKey, v: V)
    requires l.stack == [] && l.active > 0 && k in l.db.nextIds && IdsBelowCounters(l.db)
    ensures CanUndo(Created(l, k, v)) && Undid(Created(l, k, v)).db == l.db
  {
    FreshRecordExplains(l.db);
    CreateKeepsExplains(l.db, EmptyState(), l.db, k, v);
    UndoIsExact(l.db, OnCreate(EmptyState(), ObjectId(k, l.db.nextIds[k])), CreateIn(l.db, k, v));
  }

  lemma FirstAct<V>(l: Log<V>, a: Act<V>, rest: seq<Act<V>>, l1: Log<V>)
    requires Step(l, a) == Some(l1)
    ensures Run(l, [a] + rest) == Run(l1, rest)
    ensures Depth([a] + rest) == Max(DepthOf(a), Depth(rest))
  {
    assert ([a] + rest)[1..] == rest;
  }
}
