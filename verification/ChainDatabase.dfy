/**
 * Pushing blocks onto the chain (libraries/chain/db_block.cpp): extending the head, switching to a
 * longer fork, and recovering when the new fork turns out to be invalid.
 *
 * The object state is one value; what a block does to it is a deterministic function, and an undo
 * record is the state it goes back to (see UndoDatabases for why it does).
 */
module ChainDatabases {
  import opened Common
  import opened Arithmetic
  import opened Blocks
  import opened ForkDatabases

  /** The head block id and irreversible number are part of the object state, so they are undone with it. */
  datatype ChainState<S> = ChainState(head: BlockId, irreversible: nat, objects: S)

  /** What a block comes to: new objects and irreversible number, or an exception, before or after the windows have
      been given the size that the block asks for. */
  datatype Outcome<+S> = Done(objects: S, irreversible: nat) | FailsEarly | FailsLate

  type Transition<!S, !P> = (S, nat, Block<P>) -> Outcome<S>

  /** A block is only accepted on the block it names; the irreversible number never falls. */
  function ApplyBlock<S, P>(t: Transition<S, P>, s: ChainState<S>, b: Block<P>): Option<ChainState<S>> {
    if b.previous != s.head then None
    else match t(s.objects, s.irreversible, b)
      case Done(objects, n) => Some(ChainState(b.id, if n > s.irreversible then n else s.irreversible, objects))
      case FailsEarly => None
      case FailsLate => None
  }

  predicate SetsSizes<S, P>(t: Transition<S, P>, s: ChainState<S>, b: Block<P>) {
    b.previous == s.head && !t(s.objects, s.irreversible, b).FailsEarly?
  }

  function ApplyAll<S, P>(t: Transition<S, P>, s: ChainState<S>, blocks: seq<Block<P>>): Option<ChainState<S>>
    decreases |blocks|
  {
    if blocks == [] then Some(s)
    else match ApplyBlock(t, s, blocks[0])
      case None => None
      case Some(s1) => ApplyAll(t, s1, blocks[1..])
  }

  /** The undo size limit that applying `b` on `s` leaves behind, in 32-bit arithmetic. */
  function UndoLimit<S, P>(s: ChainState<S>, b: Block<P>): nat {
    var limit := b.id.num - s.irreversible + 1;
    if limit >= 0 then limit else limit % 0x1_0000_0000
  }

  // ---------- the undo records of a chain ----------

  ghost function StateAt<S>(undo: seq<ChainState<S>>, state: ChainState<S>, i: nat): ChainState<S> {
    if i < |undo| then undo[i] else state
  }

  /** Record i goes back to the state that block i was applied to. */
  ghost predicate History<S, P>(t: Transition<S, P>, undo: seq<ChainState<S>>, state: ChainState<S>,
      applied: seq<Block<P>>) {
    && |applied| == |undo|
    && forall i: nat :: i < |applied| ==>
      && Numbered(applied[i])
      && ApplyBlock(t, StateAt(undo, state, i), applied[i]) == Some(StateAt(undo, state, i + 1))
  }

  lemma HistoryTrimmed<S, P>(t: Transition<S, P>, undo: seq<ChainState<S>>, state: ChainState<S>,
      applied: seq<Block<P>>, limit: nat)
    requires History(t, undo, state, applied)
    ensures History(t, Trim(undo, limit), state, Trim(applied, limit))
  {
    var cut := if |undo| > limit then |undo| - limit else 0;
    var undo', applied' := Trim(undo, limit), Trim(applied, limit);
    forall i: nat | i < |applied'|
      ensures Numbered(applied'[i])
      ensures ApplyBlock(t, StateAt(undo', state, i), applied'[i]) == Some(StateAt(undo', state, i + 1))
    {
      assert ApplyBlock(t, StateAt(undo, state, i + cut), applied[i + cut]) == Some(StateAt(undo, state, i + cut + 1));
    }
  }

  lemma HistoryExtended<S, P>(t: Transition<S, P>, undo: seq<ChainState<S>>, state: ChainState<S>,
      applied: seq<Block<P>>, b: Block<P>)
    requires History(t, undo, state, applied) && Numbered(b) && ApplyBlock(t, state, b).Some?
    ensures History(t, undo + [state], ApplyBlock(t, state, b).value, applied + [b])
  {
    var undo', state', applied' := undo + [state], ApplyBlock(t, state, b).value, applied + [b];
    forall i: nat | i < |applied'|
      ensures Numbered(applied'[i])
      ensures ApplyBlock(t, StateAt(undo', state', i), applied'[i]) == Some(StateAt(undo', state', i + 1))
    {
      if i < |applied| {
        assert ApplyBlock(t, StateAt(undo, state, i), applied[i]) == Some(StateAt(undo, state, i + 1));
      }
    }
  }

  lemma HistoryPopped<S, P>(t: Transition<S, P>, undo: seq<ChainState<S>>, state: ChainState<S>, applied: seq<Block<P>>)
    requires History(t, undo, state, applied) && undo != []
    ensures History(t, undo[..|undo| - 1], undo[|undo| - 1], applied[..|undo| - 1])
    ensures ApplyBlock(t, undo[|undo| - 1], applied[|undo| - 1]) == Some(state)
  {
    var n := |undo| - 1;
    assert ApplyBlock(t, StateAt(undo, state, n), applied[n]) == Some(StateAt(undo, state, n + 1));
    forall i: nat | i < n
      ensures ApplyBlock(t, StateAt(undo[..n], undo[n], i), applied[i]) == Some(StateAt(undo[..n], undo[n], i + 1))
      ensures Numbered(applied[i])
    {
      assert ApplyBlock(t, StateAt(undo, state, i), applied[i]) == Some(StateAt(undo, state, i + 1));
    }
  }

  /** Re-applying the popped blocks on the state they were popped to gives the old state back. */
  lemma {:induction false} HistoryReplays<S, P>(
      t: Transition<S, P>, undo: seq<ChainState<S>>, state: ChainState<S>, applied: seq<Block<P>>, i: nat)
    requires History(t, undo, state, applied) && i <= |undo|
    ensures ApplyAll(t, StateAt(undo, state, i), applied[i..]) == Some(state)
    decreases |undo| - i
  {
    if i < |undo| {
      HistoryReplays(t, undo, state, applied, i + 1);
      assert applied[i..][0] == applied[i] && applied[i..][1..] == applied[i + 1..];
      assert ApplyBlock(t, StateAt(undo, state, i), applied[i]) == Some(StateAt(undo, state, i + 1));
    }
  }

  /** The newest blocks of the history are the head's lineage in the fork database, as far as both go. */
  lemma {:induction false} LineageIsHistory<S, P>(
      t: Transition<S, P>, undo: seq<ChainState<S>>, state: ChainState<S>, applied: seq<Block<P>>,
      items: map<BlockId, Block<P>>, j: nat)
    requires History(t, undo, state, applied) && Linked(items)
    requires forall i :: 0 <= i < |applied| ==> Agrees(items, applied[i])
    requires j < |applied| && j < |Lineage(items, state.head)|
    ensures Lineage(items, state.head)[j] == applied[|applied| - 1 - j]
    ensures StateAt(undo, state, |applied| - 1 - j).head == applied[|applied| - 1 - j].previous
  {
    var n := |applied|;
    var i: nat := n - 1 - j;
    assert ApplyBlock(t, StateAt(undo, state, i), applied[i]) == Some(StateAt(undo, state, i + 1));
    LineageSteps(items, state.head, j);
    if j > 0 {
      LineageIsHistory(t, undo, state, applied, items, j - 1);
      LineageSteps(items, state.head, j - 1);
    }
  }

  // ---------- pushing ----------

  /** Ignored: the block is kept on a shorter branch.  Rejected: an exception, after everything was put back.
      Stuck: an exception out of the popping or the recovery itself. */
  datatype PushResult = Extended | Switched | Ignored | Rejected | Stuck

  /** The state `d` blocks ago. */
  ghost function Back<S>(undo: seq<ChainState<S>>, state: ChainState<S>, d: int): ChainState<S>
    requires 0 <= d <= |undo|
  {
    if d == 0 then state else undo[|undo| - d]
  }

  /** The database, but for its fork head: the state, the undo records and their limit, and the blocks of the fork
      database. */
  datatype Chain<S, P> = Chain(
    state: ChainState<S>, undo: seq<ChainState<S>>, limit: nat, items: map<BlockId, Block<P>>)

  /** The last `k` blocks popped. */
  ghost function Rewound<S, P>(c: Chain<S, P>, k: nat): Chain<S, P>
    requires k <= |c.undo|
  {
    c.(state := Back(c.undo, c.state, k), undo := c.undo[..|c.undo| - k])
  }

  /** What is left of a set of blocks. */
  ghost predicate Within<P>(items: map<BlockId, Block<P>>, items': map<BlockId, Block<P>>) {
    forall id :: id in items' ==> id in items && items'[id] == items[id]
  }

  ghost predicate Keeps<P>(items: map<BlockId, Block<P>>, items': map<BlockId, Block<P>>, low: int) {
    forall id :: id in items && id.num >= low ==> id in items'
  }

  /** A block tried in a session of its own, below a fork head numbered `top`. */
  ghost function Tried<S, P>(t: Transition<S, P>, c: Chain<S, P>, top: Option<int>, b: Block<P>): Chain<S, P> {
    var undo, limit := Trim(c.undo, c.limit), UndoLimit(c.state, b);
    match ApplyBlock(t, c.state, b)
    case Some(next) => Chain(next, undo + [c.state], limit, SizedTo(c.items, top, limit))
    case None =>
      if SetsSizes(t, c.state, b) then Chain(c.state, undo, limit, SizedTo(c.items, top, limit))
      else c.(undo := undo)
  }

  /** Blocks tried one after another until one fails. */
  ghost function Grown<S, P>(t: Transition<S, P>, c: Chain<S, P>, top: int, blocks: seq<Block<P>>): Chain<S, P>
    decreases |blocks|
  {
    if blocks == [] then c
    else if ApplyBlock(t, c.state, blocks[0]).None? then Tried(t, c, Some(top), blocks[0])
    else Grown(t, Tried(t, c, Some(top), blocks[0]), top, blocks[1..])
  }

  /** How many of them apply. */
  ghost function HowMany<S, P>(t: Transition<S, P>, s: ChainState<S>, blocks: seq<Block<P>>): (n: nat)
    ensures n <= |blocks|
    decreases |blocks|
  {
    if blocks == [] then 0
    else match ApplyBlock(t, s, blocks[0])
      case None => 0
      case Some(next) => 1 + HowMany(t, next, blocks[1..])
  }

  datatype Push<S, P> = Push(result: PushResult, chain: Chain<S, P>)

  ghost function Ids<P>(blocks: seq<Block<P>>): set<BlockId> {
    set b | b in blocks :: b.id
  }

  /** A fork switch: pop to the parting, try the new branch, and when one of its blocks fails take it and those above
      out of the fork database, pop the others and put the old branch back.  It gets stuck where the records or the
      fork head's ancestors run out. */
  ghost function SwitchOf<S, P>(t: Transition<S, P>, c: Chain<S, P>, newHead: int, bs: Branches<P>): Push<S, P>
    requires |bs.second| > 0
  {
    SwitchFrom(t, c, PinnedBy(c.items, bs), newHead, bs)
  }

  /** The same, holding on to some blocks. */
  ghost function SwitchFrom<S, P>(
      t: Transition<S, P>, c: Chain<S, P>, pinned: map<BlockId, Block<P>>, newHead: int, bs: Branches<P>): Push<S, P>
    requires |bs.second| > 0
  {
    if |bs.second| > |c.undo| then Push(Stuck, Rewound(c, |c.undo|))
    else Rebranched(t, pinned, Rewound(c, |bs.second|), newHead - |bs.second|, bs)
  }

  /** From the parting on. */
  ghost function Rebranched<S, P>(
      t: Transition<S, P>, pinned: map<BlockId, Block<P>>, base: Chain<S, P>, top: int, bs: Branches<P>): Push<S, P>
    requires |bs.second| > 0
  {
    var n, grown := HowMany(t, base.state, Reversed(bs.first)), Grown(t, base, top, Reversed(bs.first));
    if n == |bs.first| then Push(Switched, grown) else Recovered(t, pinned, TakenOut(grown, bs, n), n, bs)
  }

  /** The failed block and everything above it taken out of the fork database. */
  ghost function TakenOut<S, P>(c: Chain<S, P>, bs: Branches<P>, n: nat): Chain<S, P>
    requires n <= |bs.first|
  {
    c.(items := c.items - Ids(bs.first[..|bs.first| - n]))
  }

  /** The way back from the first `n` blocks of a branch. */
  ghost function Recovered<S, P>(
      t: Transition<S, P>, pinned: map<BlockId, Block<P>>, c: Chain<S, P>, n: nat, bs: Branches<P>): Push<S, P>
    requires |bs.second| > 0
  {
    var room := Room(Alive(c.items, pinned), Some(bs.second[0]));
    if n > |c.undo| || n > room then Push(Stuck, Rewound(c, Min(|c.undo|, room)))
    else Push(Rejected, Grown(t, Rewound(c, n), bs.second[0].id.num - n, Reversed(bs.second)))
  }

  /** A block on the head is applied with one undo record more, or refused and taken out of the fork database. */
  ghost function Extends<S, P>(t: Transition<S, P>, c: Chain<S, P>, top: Option<int>, b: Block<P>): Push<S, P> {
    var tried := Tried(t, c, top, b);
    if ApplyBlock(t, c.state, b).Some? then Push(Extended, tried)
    else Push(Rejected, tried.(items := tried.items - {b.id}))
  }

  /** A higher fork is switched to if it parts from the head's branch among the blocks held. */
  ghost function Follows<S, P>(t: Transition<S, P>, c: Chain<S, P>, newHead: BlockId): Push<S, P>
    requires Linked(c.items)
  {
    match BranchesOf(c.items, newHead, c.state.head)
    case None => Push(Rejected, c)
    case Some(bs) => SwitchOf(t, c, newHead.num, bs)
  }

  class ChainDatabase<!S, !P(==)> {
    const t: Transition<S, P>
    const fork: ForkDatabase<P>

    var state: ChainState<S>
    var undo: seq<ChainState<S>>
    var undoLimit: nat

    ghost var applied: seq<Block<P>>

    ghost predicate Valid() reads this, fork {
      && fork.Valid()
      && History(t, undo, state, applied)
      && (forall i :: 0 <= i < |applied| ==> Agrees(fork.items, applied[i]))
    }

    /** Block ids are collision-free hashes: any block we know under this id is this block. */
    ghost predicate Authentic(b: Block<P>) reads this, fork {
      && Numbered(b) && Agrees(fork.items, b)
      && (fork.head.Some? && fork.head.value.id == b.id ==> fork.head.value == b)
      && (forall i :: 0 <= i < |applied| && applied[i].id == b.id ==> applied[i] == b)
    }

    ghost function Now(): Chain<S, P>
      reads this, fork
    {
      Chain(state, undo, undoLimit, fork.items)
    }

    constructor (t: Transition<S, P>, genesis: S)
      ensures Valid() && this.t == t && fresh(fork) && fork.pinned == map[]
      ensures Now() == Chain(ChainState(ZERO_ID, 0, genesis), [], MIN_UNDO_HISTORY, map[])
      ensures fork.head == None && fork.maxSize == 1024
    {
      this.t := t;
      fork := new ForkDatabase();
      state, undo, undoLimit := ChainState(ZERO_ID, 0, genesis), [], MIN_UNDO_HISTORY;
      applied := [];
    }

    /** One undo session around apply_block: committed if the block applies, undone if it throws. */
    method ApplyInSession(b: Block<P>) returns (ok: bool)
      requires Valid() && Numbered(b) && Agrees(fork.items, b)
      modifies this, fork`items, fork`maxSize
      ensures Valid()
      ensures ok == ApplyBlock(t, old(state), b).Some?
      ensures Now() == Tried(t, old(Now()), HeadNum(fork.head), b)
      ensures ok ==> fork.maxSize == undoLimit
    {
      HistoryTrimmed(t, undo, state, applied, undoLimit);
      undo, applied := Trim(undo, undoLimit), Trim(applied, undoLimit);
      if SetsSizes(t, state, b) {
        undoLimit := UndoLimit(state, b);
        fork.SetMaxSize(undoLimit);
      }
      match ApplyBlock(t, state, b)
      case None => ok := false;
      case Some(next) =>
        HistoryExtended(t, undo, state, applied, b);
        undo, state, applied := undo + [state], next, applied + [b];
        ok := true;
    }

    /** Pops the head block; refused (by an exception) without a block, a parent in the fork database or a record. */
    method PopBlock() returns (ok: bool)
      requires Valid()
      modifies this, fork`head
      ensures Valid()
      ensures ok ==
        (old(state).head != ZERO_ID && old(fork.head).Some? && old(undo) != []
         && old(fork.head).value.previous in Alive(fork.items, fork.pinned))
      ensures ok ==>
        && undo == old(undo)[..|old(undo)| - 1] && state == old(undo)[|old(undo)| - 1] && undoLimit == old(undoLimit)
        && fork.head == Some(Alive(fork.items, fork.pinned)[old(fork.head).value.previous])
      ensures !ok ==> state == old(state) && undo == old(undo) && undoLimit == old(undoLimit)
    {
      if state.head == ZERO_ID { return false; }
      ok := fork.PopBlock();
      if !ok || undo == [] { return false; }
      HistoryPopped(t, undo, state, applied);
      state, undo, applied := undo[|undo| - 1], undo[..|undo| - 1], applied[..|undo| - 1];
    }

    /** Pops the `n` blocks above `point`, or as many as the records and the fork head's ancestors allow. */
    method PopTo(point: BlockId, ghost n: nat, ghost c: Chain<S, P>) returns (ok: bool)
      requires Valid() && Now() == c && c.state.head.num == point.num + n
      requires n <= |c.undo| ==> Back(c.undo, c.state, n).head == point
      modifies this, fork`head
      ensures Valid()
      ensures var k := Min(n, Min(|c.undo|, Room(Alive(fork.items, fork.pinned), old(fork.head))));
        ok == (k == n) && Now() == Rewound(c, k)
      ensures ok && old(fork.head).Some? ==> HeadNum(fork.head) == Some(old(fork.head).value.id.num - n)
    {
      ghost var k: nat := 0;
      ghost var alive, head0 := Alive(fork.items, fork.pinned), fork.head;
      while state.head != point
        invariant Valid() && alive == Alive(fork.items, fork.pinned)
        invariant Popping(c, Now(), alive, head0, fork.head, n, k)
        decreases |undo|
      {
        assert k < n;
        ok := PopOne(c, alive, head0, n, k);
        if !ok { return; }
        k := k + 1;
      }
      ok := true;
    }

    method PopOne(
        ghost c: Chain<S, P>, ghost alive: map<BlockId, Block<P>>, ghost head0: Option<Block<P>>, ghost n: nat,
        ghost k: nat)
      returns (ok: bool)
      requires Valid() && alive == Alive(fork.items, fork.pinned) && Popping(c, Now(), alive, head0, fork.head, n, k)
      requires k < n <= c.state.head.num
      modifies this, fork`head
      ensures Valid()
      ensures ok ==> Popping(c, Now(), alive, head0, fork.head, n, k + 1) && |undo| < |old(undo)|
      ensures !ok ==> Now() == old(Now()) && k == Min(|c.undo|, Room(alive, head0))
    {
      if undo != [] { HeadIsNumbered(); }
      PoppingGoesOn(c, Now(), alive, head0, fork.head, n, k);
      ok := PopBlock();
    }

    lemma HeadIsNumbered()
      requires Valid() && undo != []
      ensures state.head != ZERO_ID && undo[|undo| - 1].head.num + 1 == state.head.num
    {
      HistoryPopped(t, undo, state, applied);
    }

    /** All or nothing on the object state.  The block extends the head; or it completes a longer fork, and the
        state becomes that of the whole fork applied on the parting; or the state is exactly as before. */
    method PushBlock(b: Block<P>, skipForkDb: bool) returns (r: PushResult)
      requires Valid() && Authentic(b) && fork.pinned == map[]
      modifies this, fork
      ensures Valid() && fork.pinned == map[]
      ensures var pushed := Pushed(old(fork.items), old(fork.head), old(fork.maxSize), b);
        var held := PushedItems(old(fork.items), old(fork.head), old(fork.maxSize), b);
        Push(r, Now()) ==
          if !skipForkDb && pushed.Failed? then Push(Rejected, old(Now()))
          else if skipForkDb then Extends(t, old(Now()), HeadNum(old(fork.head)), b)
          else if pushed.head.previous == old(state).head then
            Extends(t, old(Now()).(items := held), Some(pushed.head.id.num), b)
          else if pushed.head.id.num <= old(state).head.num then Push(Ignored, old(Now()).(items := held))
          else Follows(t, old(Now()).(items := held), pushed.head.id)
      ensures r != Extended && r != Switched && r != Stuck ==> state == old(state)
      ensures !skipForkDb && (r == Extended || r == Ignored) ==>
        && fork.head == Some(Pushed(old(fork.items), old(fork.head), old(fork.maxSize), b).head)
        && fork.maxSize == if r == Extended then undoLimit else old(fork.maxSize)
    {
      if !skipForkDb {
        var pushed := fork.PushBlock(b);
        if pushed.Failed? { return Rejected; }
        if pushed.head.previous != state.head {
          if pushed.head.id.num <= state.head.num { return Ignored; }
          r := FollowFork(pushed.head);
          return;
        }
      }
      r := Extend(b);
    }

    method Extend(b: Block<P>) returns (r: PushResult)
      requires Valid() && Numbered(b) && Agrees(fork.items, b)
      modifies this, fork`items, fork`maxSize
      ensures Valid() && Push(r, Now()) == Extends(t, old(Now()), HeadNum(fork.head), b)
      ensures r == Extended ==> fork.maxSize == undoLimit
    {
      var ok := ApplyInSession(b);
      if ok { return Extended; }
      fork.Remove(b.id);
      r := Rejected;
    }

    /** A fork that is higher than the head. */
    method FollowFork(newHead: Block<P>) returns (r: PushResult)
      requires Valid() && fork.head == Some(newHead) && fork.pinned == map[] && newHead.id.num > state.head.num
      modifies this, fork
      ensures Valid() && fork.pinned == map[]
      ensures Push(r, Now()) == Follows(t, old(Now()), newHead.id)
      ensures r == Rejected ==> state == old(state)
      ensures r in {Switched, Rejected, Stuck}
    {
      var branches := fork.FetchBranchFrom(newHead.id, state.head);
      if branches == None { return Rejected; }
      LineageSteps(fork.items, newHead.id, 0);
      PartingNumbers(fork.items, newHead.id, state.head, branches.value);
      r := SwitchForks(branches.value, newHead.id);
    }

    /** The fork switch, holding on to the blocks of both branches. */
    method SwitchForks(bs: Branches<P>, ghost newHead: BlockId) returns (r: PushResult)
      requires Valid() && fork.head.Some? && fork.head.value.id == newHead && newHead in fork.items
      requires fork.pinned == map[]
      requires newHead.num > state.head.num && BranchesPart(fork.items, newHead, state.head, bs)
      modifies this, fork
      ensures Valid() && fork.pinned == map[]
      ensures Push(r, Now()) == SwitchOf(t, old(Now()), newHead.num, bs)
      ensures AllOrNothing(t, old(Now()), bs, r, Now())
    {
      ghost var c, applied0 := Now(), applied;
      SwitchIsReady(t, c, applied, fork.head, newHead, bs);
      r := HoldAndSwitch(bs, newHead.num, c);
      SwitchIsAllOrNothing(t, c, applied0, newHead, bs, Push(r, Now()));
    }

    method HoldAndSwitch(bs: Branches<P>, ghost top: int, ghost c: Chain<S, P>) returns (r: PushResult)
      requires Valid() && Now() == c && fork.pinned == map[] && HeadNum(fork.head) == Some(top)
      requires IsReady(c, PinnedBy(c.items, bs), fork.head, bs)
      modifies this, fork
      ensures Valid() && fork.pinned == map[]
      ensures Push(r, Now()) == SwitchFrom(t, c, PinnedBy(c.items, bs), top, bs)
    {
      fork.Pin(bs);
      r := PopAndApply(bs, top, c, SwitchFrom(t, c, fork.pinned, top, bs));
      fork.Unpin();
    }

    /** Pops to the parting, applies the new branch, and goes back if one of its blocks fails. */
    method PopAndApply(bs: Branches<P>, ghost top: int, ghost c: Chain<S, P>, ghost p: Push<S, P>)
      returns (r: PushResult)
      requires Valid() && Now() == c && HeadNum(fork.head) == Some(top) && IsReady(c, fork.pinned, fork.head, bs)
      requires p == SwitchFrom(t, c, fork.pinned, top, bs)
      modifies this, fork`head, fork`items, fork`maxSize
      ensures Valid() && Push(r, Now()) == p
    {
      var ok := PopToParting(bs, c);
      if !ok { return Stuck; }
      r := ApplyOrRecover(bs, top - |bs.second|, Rewound(c, |bs.second|));
    }

    method PopToParting(bs: Branches<P>, ghost c: Chain<S, P>) returns (ok: bool)
      requires Valid() && Now() == c && fork.head.Some? && CanReturn(c, bs, |bs.second|)
      requires |bs.second| <= Room(Alive(c.items, fork.pinned), fork.head)
      modifies this, fork`head
      ensures Valid() && ok == (|bs.second| <= |c.undo|)
      ensures if ok then Now() == Rewound(c, |bs.second|) else Now() == Rewound(c, |c.undo|)
      ensures ok ==> HeadNum(fork.head) == Some(old(fork.head).value.id.num - |bs.second|)
    {
      ok := PopTo(bs.second[|bs.second| - 1].previous, |bs.second|, c);
    }

    /** From the parting on. */
    method ApplyOrRecover(bs: Branches<P>, ghost top: int, ghost base: Chain<S, P>) returns (r: PushResult)
      requires Valid() && Now() == base && HeadNum(fork.head) == Some(top) && CanReturn(base, bs, 0)
      requires IsHeld(base.items, bs.first) && HoldsOn(fork.pinned, bs.second)
      modifies this, fork`head, fork`items, fork`maxSize
      ensures Valid()
      ensures Push(r, Now()) == Rebranched(t, fork.pinned, base, top, bs)
    {
      var n := ApplyBranch(bs.first);
      if n == |bs.first| { return Switched; }
      ghost var grown := Now();
      RemoveBlocks(bs.first[..|bs.first| - n]);
      assert Now() == TakenOut(grown, bs, n);
      GrownReturns(t, base, top, bs, n);
      r := Recover(bs, n, TakenOut(grown, bs, n), Recovered(t, fork.pinned, TakenOut(grown, bs, n), n, bs));
    }

    /** The exception path of the switch, after the failed blocks have been taken out. */
    method Recover(bs: Branches<P>, n: nat, ghost c: Chain<S, P>, ghost p: Push<S, P>) returns (r: PushResult)
      requires Valid() && Now() == c && CanReturn(c, bs, n) && HoldsOn(fork.pinned, bs.second)
      requires p == Recovered(t, fork.pinned, c, n, bs)
      modifies this, fork`head, fork`items, fork`maxSize
      ensures Valid() && Push(r, Now()) == p
    {
      HeldOn(c.items, fork.pinned, bs.second);
      var ok := PopBack(bs, n, c);
      if !ok { return Stuck; }
      var m := ApplyBranch(bs.second);  // these have been applied before
      r := Rejected;
    }

    method PopBack(bs: Branches<P>, n: nat, ghost c: Chain<S, P>) returns (ok: bool)
      requires Valid() && Now() == c && CanReturn(c, bs, n) && HoldsOn(fork.pinned, bs.second)
      modifies this, fork`head
      ensures Valid()
      ensures var room := Room(Alive(c.items, fork.pinned), Some(bs.second[0]));
        ok == (n <= |c.undo| && n <= room) && Now() == Rewound(c, if ok then n else Min(|c.undo|, room))
      ensures ok ==> HeadNum(fork.head) == Some(bs.second[0].id.num - n)
    {
      assert bs.second[0] in bs.second;
      fork.SetHead(bs.second[0]);
      ok := PopTo(bs.second[|bs.second| - 1].previous, n, c);
    }

    /** Applies the blocks of a branch (listed newest first) from the parting upwards, until one fails. */
    method ApplyBranch(branch: seq<Block<P>>) returns (n: nat)
      requires Valid() && fork.head.Some? && IsHeld(fork.items, branch)
      modifies this, fork`items, fork`maxSize
      ensures Valid() && Within(old(fork.items), fork.items)
      ensures n == HowMany(t, old(state), Reversed(branch))
      ensures Now() == Grown(t, old(Now()), fork.head.value.id.num, Reversed(branch))
    {
      n := 0;
      ghost var c0, blocks, top := Now(), Reversed(branch), fork.head.value.id.num;
      ghost var end := Tries(Grown(t, c0, top, blocks), HowMany(t, c0.state, blocks));
      TryingStarts(t, c0, top, blocks);
      while n < |branch|
        invariant Valid() && Trying(t, c0.items, Now(), top, blocks, n, end)
      {
        var b := branch[|branch| - 1 - n];
        assert b == blocks[n] && b in branch;
        ghost var c := Now();
        var ok := ApplyInSession(b);
        TryingGoesOn(t, c0.items, c, top, blocks, n, end);
        if !ok { return; }
        n := n + 1;
      }
      TryingEnds(t, c0.items, Now(), top, blocks, end);
    }

    /** Takes the failed block and everything above it out of the fork database. */
    method RemoveBlocks(bad: seq<Block<P>>)
      requires Valid()
      modifies fork`items
      ensures Valid() && fork.items == old(fork.items) - Ids(bad)
    {
      for i := |bad| downto 0
        invariant Valid() && fork.items == old(fork.items) - Ids(bad[i..])
      {
        fork.Remove(bad[i].id);
        assert bad[i..] == [bad[i]] + bad[i + 1..];
      }
    }
  }

  /** `k` of the `n` blocks have been popped. */
  ghost predicate Popping<S, P>(
      c: Chain<S, P>, now: Chain<S, P>, alive: map<BlockId, Block<P>>, head0: Option<Block<P>>,
      head: Option<Block<P>>, n: nat, k: nat)
  {
    && k <= n && k <= |c.undo| && now == Rewound(c, k) && now.state.head.num + k == c.state.head.num
    && k <= Room(alive, head0) && Room(alive, head) == Room(alive, head0) - k
    && (head0.Some? ==> head.Some? && head.value.id.num + k == head0.value.id.num)
  }

  /** Another block can be popped exactly when a record and a parent are left. */
  lemma PoppingGoesOn<S, P>(
      c: Chain<S, P>, now: Chain<S, P>, alive: map<BlockId, Block<P>>, head0: Option<Block<P>>,
      head: Option<Block<P>>, n: nat, k: nat)
    requires Linked(alive) && (head.Some? ==> Numbered(head.value))
    requires Popping(c, now, alive, head0, head, n, k) && k < n
    ensures var ok := now.undo != [] && head.Some? && head.value.previous in alive;
      && (!ok ==> k == Min(|c.undo|, Room(alive, head0)))
      && (ok && now.undo[|now.undo| - 1].head.num + 1 == now.state.head.num ==>
            Popping(c, Rewound(now, 1), alive, head0, Some(alive[head.value.previous]), n, k + 1))
  {
    assert Room(alive, head) > 0 <==> head.Some? && head.value.previous in alive;
  }

  // ---------- what a switch comes to ----------

  ghost predicate IsHistoryOf<S, P>(t: Transition<S, P>, c: Chain<S, P>, applied: seq<Block<P>>) {
    History(t, c.undo, c.state, applied) && forall i :: 0 <= i < |applied| ==> Agrees(c.items, applied[i])
  }

  /** The records, as far as they go, return through the states that the blocks passed. */
  ghost predicate RecordsBranch<S, P>(
      t: Transition<S, P>, base: ChainState<S>, blocks: seq<Block<P>>, undo: seq<ChainState<S>>, state: ChainState<S>)
  {
    forall i: nat :: i <= |blocks| && i <= |undo| ==>
      ApplyAll(t, base, blocks[..|blocks| - i]) == Some(Back(undo, state, i))
  }

  /** The switch succeeds exactly when the records reach down to the parting and the whole new branch applies there;
      refused, it leaves the state as it was. */
  ghost predicate AllOrNothing<S, P>(
      t: Transition<S, P>, c: Chain<S, P>, bs: Branches<P>, r: PushResult, c': Chain<S, P>)
  {
    if |bs.second| > |c.undo| then r == Stuck
    else Rebased(t, Back(c.undo, c.state, |bs.second|), Reversed(bs.first), c.state, r, c')
  }

  ghost predicate Rebased<S, P>(
      t: Transition<S, P>, base: ChainState<S>, blocks: seq<Block<P>>, before: ChainState<S>, r: PushResult,
      c: Chain<S, P>)
  {
    && r in {Switched, Rejected, Stuck}
    && (r == Switched <==> ApplyAll(t, base, blocks).Some?)
    && (r == Switched ==>
          ApplyAll(t, base, blocks) == Some(c.state) && RecordsBranch(t, base, blocks, c.undo, c.state))
    && (r == Rejected ==> c.state == before)
  }

  lemma PartingNumbers<P>(items: map<BlockId, Block<P>>, first: BlockId, second: BlockId, bs: Branches<P>)
    requires Linked(items) && BranchesPart(items, first, second, bs)
    ensures bs.second[|bs.second| - 1].previous.num + |bs.second| == second.num
    ensures bs.second[|bs.second| - 1].previous.num + |bs.first| == first.num
  {
    LineageSteps(items, first, |bs.first| - 1);
    LineageSteps(items, second, |bs.second| - 1);
  }

  /** The old branch is the newest part of the history. */
  lemma OldBranch<S, P>(
      t: Transition<S, P>, undo: seq<ChainState<S>>, state: ChainState<S>, applied: seq<Block<P>>,
      items: map<BlockId, Block<P>>, second: seq<Block<P>>)
    requires History(t, undo, state, applied) && Linked(items)
    requires forall i :: 0 <= i < |applied| ==> Agrees(items, applied[i])
    requires 0 < |second| <= |undo| && second <= Lineage(items, state.head)
    ensures forall j :: 0 <= j < |second| ==>
      second[j] == applied[|applied| - 1 - j] && Numbered(second[j]) && Agrees(items, second[j])
    ensures Back(undo, state, |second|).head == second[|second| - 1].previous
  {
    forall j | 0 <= j < |second|
      ensures second[j] == applied[|applied| - 1 - j] && Numbered(second[j]) && Agrees(items, second[j])
    {
      LineageIsHistory(t, undo, state, applied, items, j);
      LineageSteps(items, state.head, j);
    }
    LineageIsHistory(t, undo, state, applied, items, |second| - 1);
  }

  lemma BranchIsHeld<P>(items: map<BlockId, Block<P>>, id: BlockId, branch: seq<Block<P>>)
    requires Linked(items) && branch <= Lineage(items, id)
    ensures forall b :: b in branch || b in Reversed(branch) ==> Numbered(b) && b.id in items && items[b.id] == b
  {
    forall i: nat | i < |branch|
      ensures Numbered(branch[i]) && branch[i].id in items && items[branch[i].id] == branch[i]
    {
      LineageSteps(items, id, i);
    }
  }

  /** The new head has more ancestors in its branch than there are blocks to pop. */
  lemma RoomToPart<P>(items: map<BlockId, Block<P>>, newHead: BlockId, bs: Branches<P>, head: BlockId)
    requires Linked(items) && newHead in items && newHead.num > head.num && BranchesPart(items, newHead, head, bs)
    ensures |bs.second| <= Room(items, Some(items[newHead]))
  {
    AncestorsAreLineage(items, items[newHead].previous);
    PartingNumbers(items, newHead, head, bs);
  }

  // ---------- trying the blocks of a branch ----------

  lemma {:induction false} GrownHead<S, P>(t: Transition<S, P>, c: Chain<S, P>, top: int, blocks: seq<Block<P>>)
    requires forall b :: b in blocks ==> Numbered(b)
    ensures Grown(t, c, top, blocks).state.head.num == c.state.head.num + HowMany(t, c.state, blocks)
    decreases |blocks|
  {
    if blocks != [] && ApplyBlock(t, c.state, blocks[0]).Some? {
      assert blocks[0] in blocks && forall b :: b in blocks[1..] ==> b in blocks;
      GrownHead(t, Tried(t, c, Some(top), blocks[0]), top, blocks[1..]);
    }
  }

  /** What trying blocks comes to, and how many of them apply. */
  datatype Tries<S, P> = Tries(chain: Chain<S, P>, applied: nat)

  /** The first `n` blocks have been applied, and what is still to come leads to `end`. */
  ghost predicate Trying<S, P>(
      t: Transition<S, P>, items0: map<BlockId, Block<P>>, c: Chain<S, P>, top: int, blocks: seq<Block<P>>, n: nat,
      end: Tries<S, P>)
  {
    && n <= |blocks| && Within(items0, c.items)
    && Tries(Grown(t, c, top, blocks[n..]), n + HowMany(t, c.state, blocks[n..])) == end
  }

  lemma TryingStarts<S, P>(t: Transition<S, P>, c: Chain<S, P>, top: int, blocks: seq<Block<P>>)
    ensures Trying(t, c.items, c, top, blocks, 0, Tries(Grown(t, c, top, blocks), HowMany(t, c.state, blocks)))
  {
    assert blocks[0..] == blocks;
  }

  lemma TryingEnds<S, P>(
      t: Transition<S, P>, items0: map<BlockId, Block<P>>, c: Chain<S, P>, top: int, blocks: seq<Block<P>>,
      end: Tries<S, P>)
    requires Trying(t, items0, c, top, blocks, |blocks|, end)
    ensures end == Tries(c, |blocks|)
  {
    assert blocks[|blocks|..] == [];
  }

  lemma TryingGoesOn<S, P>(
      t: Transition<S, P>, items0: map<BlockId, Block<P>>, c: Chain<S, P>, top: int, blocks: seq<Block<P>>, n: nat,
      end: Tries<S, P>)
    requires n < |blocks| && Trying(t, items0, c, top, blocks, n, end)
    ensures var next := Tried(t, c, Some(top), blocks[n]);
      && Within(items0, next.items)
      && if ApplyBlock(t, c.state, blocks[n]).None? then end == Tries(next, n)
         else Trying(t, items0, next, top, blocks, n + 1, end)
  {
    assert blocks[n..][0] == blocks[n] && blocks[n..][1..] == blocks[n + 1..];
  }

  /** Going back `k` blocks from `c'` leads where going back `j` blocks from `c` does, if the records reach. */
  ghost predicate Meets<S, P>(c': Chain<S, P>, k: nat, c: Chain<S, P>, j: nat) {
    k <= |c'.undo| ==> j <= |c.undo| && Back(c'.undo, c'.state, k) == Back(c.undo, c.state, j)
  }

  lemma MeetsFurther<S, P>(c2: Chain<S, P>, k: nat, c1: Chain<S, P>, i: nat, c0: Chain<S, P>, j: nat)
    requires Meets(c2, k, c1, i) && Meets(c1, i, c0, j)
    ensures Meets(c2, k, c0, j)
  {
  }

  /** Trying a block adds one record, or none, on top of those that the limit leaves. */
  lemma TriedBack<S, P>(t: Transition<S, P>, c: Chain<S, P>, top: Option<int>, b: Block<P>, j: nat)
    ensures Meets(Tried(t, c, top, b), if ApplyBlock(t, c.state, b).Some? then j + 1 else j, c, j)
  {
    var undo := Trim(c.undo, c.limit);
    if 0 < j <= |undo| { assert undo[|undo| - j] == c.undo[|c.undo| - j]; }
  }

  /** The records of a branch go back through it, and then to where the older ones went. */
  lemma {:induction false} GrownBack<S, P>(
      t: Transition<S, P>, c: Chain<S, P>, top: int, blocks: seq<Block<P>>, j: nat)
    ensures Meets(Grown(t, c, top, blocks), HowMany(t, c.state, blocks) + j, c, j)
    decreases |blocks|
  {
    if blocks != [] {
      var next, rest := Tried(t, c, Some(top), blocks[0]), blocks[1..];
      TriedBack(t, c, Some(top), blocks[0], j);
      if ApplyBlock(t, c.state, blocks[0]).Some? {
        var n := HowMany(t, next.state, rest);
        GrownBack(t, next, top, rest, j + 1);
        MeetsFurther(Grown(t, next, top, rest), n + j + 1, next, j + 1, c, j);
      }
    }
  }

  /** The blocks before the first that fails apply as a whole, and all of them exactly when none fails. */
  lemma {:induction false} GrownApplies<S, P>(t: Transition<S, P>, c: Chain<S, P>, top: int, blocks: seq<Block<P>>)
    ensures var n := HowMany(t, c.state, blocks);
      && ApplyAll(t, c.state, blocks[..n]) == Some(Grown(t, c, top, blocks).state)
      && (ApplyAll(t, c.state, blocks).Some? <==> n == |blocks|)
    decreases |blocks|
  {
    var n := HowMany(t, c.state, blocks);
    if blocks != [] && ApplyBlock(t, c.state, blocks[0]).Some? {
      GrownApplies(t, Tried(t, c, Some(top), blocks[0]), top, blocks[1..]);
      assert blocks[..n][1..] == blocks[1..][..n - 1];
    }
  }

  /** Stopping after `k` blocks and going on is the same as trying them all. */
  lemma {:induction false} GrownSplits<S, P>(
      t: Transition<S, P>, c: Chain<S, P>, top: int, blocks: seq<Block<P>>, k: nat)
    requires k <= HowMany(t, c.state, blocks)
    ensures var mid := Grown(t, c, top, blocks[..k]);
      && ApplyAll(t, c.state, blocks[..k]) == Some(mid.state)
      && Grown(t, mid, top, blocks[k..]) == Grown(t, c, top, blocks)
      && HowMany(t, mid.state, blocks[k..]) == HowMany(t, c.state, blocks) - k
    decreases |blocks|
  {
    if k == 0 {
      assert blocks[..k] == [] && blocks[k..] == blocks;
    } else {
      GrownSplits(t, Tried(t, c, Some(top), blocks[0]), top, blocks[1..], k - 1);
      assert blocks[..k][1..] == blocks[1..][..k - 1] && blocks[1..][k - 1..] == blocks[k..];
    }
  }

  lemma GrownRecords<S, P>(t: Transition<S, P>, c: Chain<S, P>, top: int, blocks: seq<Block<P>>)
    requires HowMany(t, c.state, blocks) == |blocks|
    ensures var c' := Grown(t, c, top, blocks); RecordsBranch(t, c.state, blocks, c'.undo, c'.state)
  {
    var c' := Grown(t, c, top, blocks);
    forall i: nat | i <= |blocks| && i <= |c'.undo|
      ensures ApplyAll(t, c.state, blocks[..|blocks| - i]) == Some(Back(c'.undo, c'.state, i))
    {
      GrownSplits(t, c, top, blocks, |blocks| - i);
      GrownBack(t, Grown(t, c, top, blocks[..|blocks| - i]), top, blocks[|blocks| - i..], 0);
    }
  }

  lemma ReversedIsTail<T>(s: seq<T>, whole: seq<T>)
    requires |s| <= |whole| && forall j :: 0 <= j < |s| ==> s[j] == whole[|whole| - 1 - j]
    ensures Reversed(s) == whole[|whole| - |s|..]
  {
  }

  lemma TailApplies<S, P>(
      t: Transition<S, P>, undo: seq<ChainState<S>>, state: ChainState<S>, applied: seq<Block<P>>,
      second: seq<Block<P>>)
    requires History(t, undo, state, applied) && |second| <= |undo|
    requires forall j :: 0 <= j < |second| ==> second[j] == applied[|applied| - 1 - j]
    ensures ApplyAll(t, Back(undo, state, |second|), Reversed(second)) == Some(state)
  {
    HistoryReplays(t, undo, state, applied, |undo| - |second|);
    ReversedIsTail(second, applied);
  }

  /** The old branch applies on its parting and gives the old state back. */
  lemma OldBranchApplies<S, P>(
      t: Transition<S, P>, c: Chain<S, P>, applied: seq<Block<P>>, second: seq<Block<P>>)
    requires IsHistoryOf(t, c, applied) && Linked(c.items) && 0 < |second| <= |c.undo|
    requires second <= Lineage(c.items, c.state.head)
    ensures ApplyAll(t, Back(c.undo, c.state, |second|), Reversed(second)) == Some(c.state)
  {
    OldBranch(t, c.undo, c.state, applied, c.items, second);
    TailApplies(t, c.undo, c.state, applied, second);
  }

  ghost predicate IsHeld<P>(items: map<BlockId, Block<P>>, branch: seq<Block<P>>) {
    forall b :: b in branch ==> Numbered(b) && Agrees(items, b)
  }

  /** The blocks of a branch in use, so that no other block can be held under their ids. */
  ghost predicate HoldsOn<P>(pinned: map<BlockId, Block<P>>, branch: seq<Block<P>>) {
    forall b :: b in branch ==> Numbered(b) && b.id in pinned && pinned[b.id] == b
  }

  lemma HeldOn<P>(items: map<BlockId, Block<P>>, pinned: map<BlockId, Block<P>>, branch: seq<Block<P>>)
    requires Compatible(items, pinned) && HoldsOn(pinned, branch)
    ensures IsHeld(items, branch)
  {
  }

  /** `n` blocks above the parting, with records that go back to it as far as they go. */
  ghost predicate CanReturn<S, P>(c: Chain<S, P>, bs: Branches<P>, n: nat) {
    && |bs.second| > 0
    && var point := bs.second[|bs.second| - 1].previous;
    && c.state.head.num == point.num + n && (n <= |c.undo| ==> Back(c.undo, c.state, n).head == point)
  }

  /** However far the new branch is applied, its records go back to the parting. */
  lemma GrownReturns<S, P>(t: Transition<S, P>, base: Chain<S, P>, top: int, bs: Branches<P>, n: nat)
    requires IsHeld(base.items, bs.first) && CanReturn(base, bs, 0)
    requires n == HowMany(t, base.state, Reversed(bs.first))
    ensures CanReturn(TakenOut(Grown(t, base, top, Reversed(bs.first)), bs, n), bs, n)
  {
    var blocks := Reversed(bs.first);
    GrownHead(t, base, top, blocks);
    if n <= |Grown(t, base, top, blocks).undo| { GrownBack(t, base, top, blocks, 0); }
  }

  /** The records and the fork head go down to the parting, the records only as far as there are any. */
  ghost predicate IsReady<S, P>(
      c: Chain<S, P>, pinned: map<BlockId, Block<P>>, head: Option<Block<P>>, bs: Branches<P>)
  {
    && IsHeld(c.items, bs.first) && HoldsOn(pinned, bs.second)
    && CanReturn(c, bs, |bs.second|) && |bs.second| <= Room(Alive(c.items, pinned), head)
  }

  lemma SwitchIsReady<S, P>(
      t: Transition<S, P>, c: Chain<S, P>, applied: seq<Block<P>>, head: Option<Block<P>>, newHead: BlockId,
      bs: Branches<P>)
    requires Linked(c.items) && IsHistoryOf(t, c, applied) && BranchesPart(c.items, newHead, c.state.head, bs)
    requires newHead in c.items && newHead.num > c.state.head.num && head == Some(c.items[newHead])
    ensures IsReady(c, PinnedBy(c.items, bs), head, bs)
  {
    PartingNumbers(c.items, newHead, c.state.head, bs);
    RoomToPart(c.items, newHead, bs, c.state.head);
    BranchIsHeld(c.items, c.state.head, bs.second);
    assert Alive(c.items, PinnedBy(c.items, bs)) == c.items;
    BranchIsHeld(c.items, newHead, bs.first);
    if |bs.second| <= |c.undo| { OldBranch(t, c.undo, c.state, applied, c.items, bs.second); }
  }

  /** A switch is all or nothing, whatever the windows are, unless it gets stuck. */
  lemma SwitchIsAllOrNothing<S, P>(
      t: Transition<S, P>, c: Chain<S, P>, applied: seq<Block<P>>, newHead: BlockId, bs: Branches<P>, p: Push<S, P>)
    requires Linked(c.items) && IsHistoryOf(t, c, applied) && BranchesPart(c.items, newHead, c.state.head, bs)
    requires p == SwitchOf(t, c, newHead.num, bs)
    ensures AllOrNothing(t, c, bs, p.result, p.chain)
  {
    if |bs.second| <= |c.undo| { IsRebased(t, c, applied, newHead.num - |bs.second|, bs, p); }
  }

  lemma IsRebased<S, P>(
      t: Transition<S, P>, c: Chain<S, P>, applied: seq<Block<P>>, top: int, bs: Branches<P>, p: Push<S, P>)
    requires Linked(c.items) && IsHistoryOf(t, c, applied) && 0 < |bs.second| <= |c.undo|
    requires bs.second <= Lineage(c.items, c.state.head)
    requires p == Rebranched(t, PinnedBy(c.items, bs), Rewound(c, |bs.second|), top, bs)
    ensures Rebased(t, Back(c.undo, c.state, |bs.second|), Reversed(bs.first), c.state, p.result, p.chain)
  {
    var base, blocks := Rewound(c, |bs.second|), Reversed(bs.first);
    if HowMany(t, base.state, blocks) == |blocks| {
      WholeIsApplied(t, base, top, blocks, p.chain);
    } else {
      PartIsNotApplied(t, base, top, blocks);
      var n := HowMany(t, base.state, blocks);
      var grown := TakenOut(Grown(t, base, top, blocks), bs, n);
      if n <= |grown.undo| { GrownBack(t, base, top, blocks, 0); }
      RecoveredIsOldState(t, c, applied, grown, bs, n, p);
    }
  }

  lemma WholeIsApplied<S, P>(
      t: Transition<S, P>, c: Chain<S, P>, top: int, blocks: seq<Block<P>>, c': Chain<S, P>)
    requires HowMany(t, c.state, blocks) == |blocks| && c' == Grown(t, c, top, blocks)
    ensures ApplyAll(t, c.state, blocks) == Some(c'.state) && RecordsBranch(t, c.state, blocks, c'.undo, c'.state)
  {
    GrownApplies(t, c, top, blocks);
    assert blocks[..|blocks|] == blocks;
    GrownRecords(t, c, top, blocks);
  }

  lemma PartIsNotApplied<S, P>(t: Transition<S, P>, c: Chain<S, P>, top: int, blocks: seq<Block<P>>)
    requires HowMany(t, c.state, blocks) != |blocks|
    ensures ApplyAll(t, c.state, blocks) == None
  {
    GrownApplies(t, c, top, blocks);
  }

  /** What is recovered is the old state. */
  lemma RecoveredIsOldState<S, P>(
      t: Transition<S, P>, c: Chain<S, P>, applied: seq<Block<P>>, grown: Chain<S, P>, bs: Branches<P>, n: nat,
      p: Push<S, P>)
    requires Linked(c.items) && IsHistoryOf(t, c, applied) && 0 < |bs.second| <= |c.undo|
    requires bs.second <= Lineage(c.items, c.state.head)
    requires n <= |grown.undo| ==> Back(grown.undo, grown.state, n) == Back(c.undo, c.state, |bs.second|)
    requires p == Recovered(t, PinnedBy(c.items, bs), grown, n, bs)
    ensures p.result in {Rejected, Stuck} && (p.result == Rejected ==> p.chain.state == c.state)
  {
    if n <= |grown.undo| {
      OldBranchRestores(t, c, applied, Rewound(grown, n), bs.second[0].id.num - n, bs.second);
    }
  }

  lemma OldBranchRestores<S, P>(
      t: Transition<S, P>, c: Chain<S, P>, applied: seq<Block<P>>, back: Chain<S, P>, top: int, second: seq<Block<P>>)
    requires IsHistoryOf(t, c, applied) && Linked(c.items) && 0 < |second| <= |c.undo|
    requires second <= Lineage(c.items, c.state.head) && back.state == Back(c.undo, c.state, |second|)
    ensures Grown(t, back, top, Reversed(second)).state == c.state
  {
    OldBranchApplies(t, c, applied, second);
    GrownApplies(t, back, top, Reversed(second));
    assert Reversed(second)[..|second|] == Reversed(second);
  }

  // ---------- exactly when it succeeds, is rejected, or gets stuck ----------

  /** How many blocks of the new branch apply. */
  ghost function AppliedOf<S, P>(t: Transition<S, P>, c: Chain<S, P>, bs: Branches<P>): (n: nat)
    requires |bs.second| <= |c.undo|
    ensures n <= |bs.first|
  {
    HowMany(t, Rewound(c, |bs.second|).state, Reversed(bs.first))
  }

  /** The chain with them applied. */
  ghost function GrownFrom<S, P>(t: Transition<S, P>, c: Chain<S, P>, newHead: int, bs: Branches<P>): Chain<S, P>
    requires |bs.second| <= |c.undo|
  {
    Grown(t, Rewound(c, |bs.second|), newHead - |bs.second|, Reversed(bs.first))
  }

  /** How far the old head can be walked down then. */
  ghost function RoomBack<S, P>(
      t: Transition<S, P>, c: Chain<S, P>, pinned: map<BlockId, Block<P>>, newHead: int, bs: Branches<P>): nat
    requires 0 < |bs.second| <= |c.undo|
  {
    var out := TakenOut(GrownFrom(t, c, newHead, bs), bs, AppliedOf(t, c, bs));
    Room(Alive(out.items, pinned), Some(bs.second[0]))
  }

  /** The three results, by the records down to the parting, the number of blocks that apply, and the records and
      ancestors left for the way back. */
  lemma SwitchExactly<S, P>(
      t: Transition<S, P>, c: Chain<S, P>, pinned: map<BlockId, Block<P>>, newHead: int, bs: Branches<P>,
      p: Push<S, P>)
    requires |bs.second| > 0 && p == SwitchFrom(t, c, pinned, newHead, bs)
    ensures p.result in {Switched, Rejected, Stuck}
    ensures p.result == Switched <==> |bs.second| <= |c.undo| && AppliedOf(t, c, bs) == |bs.first|
    ensures p.result == Switched ==> p.chain == GrownFrom(t, c, newHead, bs)
    ensures p.result == Rejected <==>
      && |bs.second| <= |c.undo| && AppliedOf(t, c, bs) < |bs.first|
      && AppliedOf(t, c, bs) <= |GrownFrom(t, c, newHead, bs).undo|
      && AppliedOf(t, c, bs) <= RoomBack(t, c, pinned, newHead, bs)
  {
  }

  // ---------- when the windows suffice ----------

  /** While the branch is applied, nothing above `bound` becomes irreversible before its last block. */
  ghost predicate StaysLow<S, P>(t: Transition<S, P>, s: ChainState<S>, blocks: seq<Block<P>>, bound: int)
    decreases |blocks|
  {
    blocks != [] ==>
      && s.irreversible <= bound
      && match ApplyBlock(t, s, blocks[0])
         case None => true
         case Some(next) => StaysLow(t, next, blocks[1..], bound)
  }

  /** While the branch is applied, the fork database, whose head is at `top`, keeps what is at or above `low`: each
      block sets its size to that of the undo window. */
  ghost predicate Wide<S, P>(t: Transition<S, P>, s: ChainState<S>, blocks: seq<Block<P>>, top: int, low: int)
    decreases |blocks|
  {
    blocks != [] ==>
      && (SetsSizes(t, s, blocks[0]) ==> top - UndoLimit(s, blocks[0]) <= low)
      && match ApplyBlock(t, s, blocks[0])
         case None => true
         case Some(next) => Wide(t, next, blocks[1..], top, low)
  }

  /** The undo records reach down to the parting; while the new branch is applied, nothing above its first
      block becomes irreversible, and the fork database keeps the ancestors of the old branch that its head has to walk
      down to when the last block fails. */
  ghost predicate WindowsSuffice<S, P>(t: Transition<S, P>, c: Chain<S, P>, newHead: int, bs: Branches<P>)
    requires Linked(c.items)
  {
    && |bs.second| <= |c.undo| && |bs.first| <= |Lineage(c.items, c.state.head)|
    && var base, blocks, top := Back(c.undo, c.state, |bs.second|), Reversed(bs.first), newHead - |bs.second|;
    && StaysLow(t, base, blocks, base.head.num + 1)
    && Wide(t, base, blocks, top, LowestNeeded(base.head.num, bs))
  }

  /** How far down the old branch the fork head walks when all but the last block of the new one are popped. */
  ghost function LowestNeeded<P>(point: int, bs: Branches<P>): int {
    point + |bs.second| - |bs.first| + 1
  }

  /** Each block has room for a record of its own above the `d` that are needed. */
  lemma {:induction false} GrownKeepsRecords<S, P>(
      t: Transition<S, P>, c: Chain<S, P>, top: int, blocks: seq<Block<P>>, point: nat, d: nat)
    requires forall b :: b in blocks ==> Numbered(b)
    requires c.state.head.num == point + d && d <= |c.undo| && (d > 0 ==> d <= c.limit)
    requires StaysLow(t, c.state, blocks, point + 1)
    ensures d + HowMany(t, c.state, blocks) <= |Grown(t, c, top, blocks).undo|
    decreases |blocks|
  {
    if blocks != [] && ApplyBlock(t, c.state, blocks[0]).Some? {
      assert blocks[0] in blocks && forall b :: b in blocks[1..] ==> b in blocks;
      GrownKeepsRecords(t, Tried(t, c, Some(top), blocks[0]), top, blocks[1..], point, d + 1);
    }
  }

  /** Applying the blocks forgets nothing at or above `low`. */
  lemma {:induction false} GrownKeeps<S, P>(
      t: Transition<S, P>, c: Chain<S, P>, top: int, blocks: seq<Block<P>>, low: int)
    ensures Within(c.items, Grown(t, c, top, blocks).items)
    ensures Wide(t, c.state, blocks, top, low) ==> Keeps(c.items, Grown(t, c, top, blocks).items, low)
    decreases |blocks|
  {
    if blocks != [] && ApplyBlock(t, c.state, blocks[0]).Some? {
      GrownKeeps(t, Tried(t, c, Some(top), blocks[0]), top, blocks[1..], low);
    }
  }

  /** With windows wide enough a switch never gets stuck, and afterwards every block of the new branch can be popped. */
  lemma WideWindowsNeverStick<S, P>(
      t: Transition<S, P>, c: Chain<S, P>, applied: seq<Block<P>>, newHead: BlockId, bs: Branches<P>)
    requires Linked(c.items) && IsHistoryOf(t, c, applied) && BranchesPart(c.items, newHead, c.state.head, bs)
    requires WindowsSuffice(t, c, newHead.num, bs)
    ensures var p := SwitchOf(t, c, newHead.num, bs);
      p.result != Stuck && (p.result == Switched ==> |bs.first| <= |p.chain.undo|)
  {
    OldBranch(t, c.undo, c.state, applied, c.items, bs.second);
    NewBranchIsWide(t, c, newHead, bs);
    if AppliedOf(t, c, bs) < |bs.first| {
      RoomIsWide(c.items, c.state.head, newHead, bs, GrownFrom(t, c, newHead.num, bs), AppliedOf(t, c, bs));
    }
    SwitchExactly(t, c, PinnedBy(c.items, bs), newHead.num, bs, SwitchOf(t, c, newHead.num, bs));
  }

  /** The records and the ancestors that are left suffice for as many blocks as apply. */
  ghost predicate IsWideFor<S, P>(items0: map<BlockId, Block<P>>, grown: Chain<S, P>, n: nat, low: int) {
    n <= |grown.undo| && Within(items0, grown.items) && Keeps(items0, grown.items, low)
  }

  lemma RoomIsWide<S, P>(
      items0: map<BlockId, Block<P>>, head: BlockId, newHead: BlockId, bs: Branches<P>, grown: Chain<S, P>, n: nat)
    requires Linked(items0) && BranchesPart(items0, newHead, head, bs) && n < |bs.first| <= |Lineage(items0, head)|
    requires IsWideFor(items0, grown, n, LowestNeeded(bs.second[|bs.second| - 1].previous.num, bs))
    ensures n <= Room(Alive(TakenOut(grown, bs, n).items, PinnedBy(items0, bs)), Some(bs.second[0]))
  {
    RoomToRecover(items0, newHead, head, bs, n, grown.items, TakenOut(grown, bs, n).items,
      LowestNeeded(bs.second[|bs.second| - 1].previous.num, bs));
  }

  lemma NewBranchIsWide<S, P>(t: Transition<S, P>, c: Chain<S, P>, newHead: BlockId, bs: Branches<P>)
    requires Linked(c.items) && BranchesPart(c.items, newHead, c.state.head, bs)
    requires WindowsSuffice(t, c, newHead.num, bs)
    requires Back(c.undo, c.state, |bs.second|).head == bs.second[|bs.second| - 1].previous
    ensures IsWideFor(c.items, GrownFrom(t, c, newHead.num, bs), AppliedOf(t, c, bs),
                      LowestNeeded(bs.second[|bs.second| - 1].previous.num, bs))
  {
    BranchIsHeld(c.items, newHead, bs.first);
    GrownIsWide(t, Rewound(c, |bs.second|), newHead.num - |bs.second|, Reversed(bs.first),
      LowestNeeded(bs.second[|bs.second| - 1].previous.num, bs));
  }

  lemma GrownIsWide<S, P>(t: Transition<S, P>, base: Chain<S, P>, top: int, blocks: seq<Block<P>>, low: int)
    requires forall b :: b in blocks ==> Numbered(b)
    requires StaysLow(t, base.state, blocks, base.state.head.num + 1) && Wide(t, base.state, blocks, top, low)
    ensures IsWideFor(base.items, Grown(t, base, top, blocks), HowMany(t, base.state, blocks), low)
  {
    GrownKeepsRecords(t, base, top, blocks, base.state.head.num, 0);
    GrownKeeps(t, base, top, blocks, low);
  }

  lemma {:induction false} AncestorsSurvive<P>(
      items: map<BlockId, Block<P>>, items': map<BlockId, Block<P>>, id: BlockId, n: nat)
    requires Linked(items) && Within(items, items') && n <= |Lineage(items, id)|
    requires forall a :: 0 <= a < n ==> Lineage(items, id)[a].id in items'
    ensures n <= Ancestors(items', id)
    decreases n
  {
    if n > 0 {
      var l := Lineage(items, id);
      assert l[0].id in items';
      forall a | 0 <= a < n - 1 ensures Lineage(items, items[id].previous)[a].id in items' {
        assert l[a + 1].id in items';
      }
      AncestorsSurvive(items, items', items[id].previous, n - 1);
    }
  }

  /** The old branch has its ancestors when its head has to walk down: the branch itself is held on to, and what lies
      below the parting is neither among the failed blocks nor forgotten. */
  lemma RoomToRecover<P>(
      items: map<BlockId, Block<P>>, newHead: BlockId, head: BlockId, bs: Branches<P>, n: nat,
      kept: map<BlockId, Block<P>>, items': map<BlockId, Block<P>>, low: int)
    requires Linked(items) && Linked(items') && BranchesPart(items, newHead, head, bs)
    requires n < |bs.first| <= |Lineage(items, head)|
    requires low == LowestNeeded(bs.second[|bs.second| - 1].previous.num, bs)
    requires Keeps(items, kept, low) && Within(items, kept)
    requires items' == kept - Ids(bs.first[..|bs.first| - n])
    ensures n <= Room(Alive(items', PinnedBy(items, bs)), Some(bs.second[0]))
  {
    var alive, up := Alive(items', PinnedBy(items, bs)), bs.second[0].previous;
    LineageSteps(items, head, 0);
    if n > 0 {
      assert Lineage(items, up) == Lineage(items, head)[1..];
      forall a | 0 <= a < n ensures Lineage(items, up)[a].id in alive {
        AncestorIsAlive(items, newHead, head, bs, n, kept, items', low, a + 1);
      }
      AncestorsSurvive(items, alive, up, n);
    }
  }

  lemma AncestorIsAlive<P>(
      items: map<BlockId, Block<P>>, newHead: BlockId, head: BlockId, bs: Branches<P>, n: nat,
      kept: map<BlockId, Block<P>>, items': map<BlockId, Block<P>>, low: int, k: nat)
    requires Linked(items) && BranchesPart(items, newHead, head, bs)
    requires k <= n < |bs.first| <= |Lineage(items, head)|
    requires low == LowestNeeded(bs.second[|bs.second| - 1].previous.num, bs)
    requires Keeps(items, kept, low)
    requires items' == kept - Ids(bs.first[..|bs.first| - n])
    ensures Lineage(items, head)[k].id in Alive(items', PinnedBy(items, bs))
  {
    var c := Lineage(items, head)[k];
    LineageSteps(items, head, k);
    PartingNumbers(items, newHead, head, bs);
    if k < |bs.second| {
      assert c == bs.second[k] && c in bs.second;
    } else {
      forall b | b in bs.first[..|bs.first| - n] ensures b.id != c.id {
        var m: nat :| m < |bs.first| - n && bs.first[m] == b;
        LineageSteps(items, newHead, m);
      }
    }
  }

  // ---------- where a switch gets stuck ----------

  lemma {:induction false} FewerAncestors<P>(items: map<BlockId, Block<P>>, items': map<BlockId, Block<P>>, id: BlockId)
    requires Within(items, items')
    ensures Ancestors(items', id) <= Ancestors(items, id)
    decreases id.num
  {
    if id in items' && items'[id].previous.num < id.num { FewerAncestors(items, items', items'[id].previous); }
  }

  lemma RoomIsBounded<P>(
      items0: map<BlockId, Block<P>>, items: map<BlockId, Block<P>>, head: BlockId, bs: Branches<P>)
    requires Linked(items0) && Within(items0, items) && |bs.second| > 0 && bs.second <= Lineage(items0, head)
    ensures Room(Alive(items, PinnedBy(items0, bs)), Some(bs.second[0])) < |Lineage(items0, head)|
  {
    LineageSteps(items0, head, 0);
    FewerAncestors(items0, Alive(items, PinnedBy(items0, bs)), bs.second[0].previous);
    AncestorsAreLineage(items0, bs.second[0].previous);
  }

  /** A failed switch is only recovered from when fewer blocks were applied than the old head has ancestors among the
      blocks held, itself counted: from the first block on, fewer than the old branch has. */
  lemma RecoveryNeedsAncestors<S, P>(t: Transition<S, P>, c: Chain<S, P>, newHead: BlockId, bs: Branches<P>)
    requires Linked(c.items) && BranchesPart(c.items, newHead, c.state.head, bs)
    requires SwitchOf(t, c, newHead.num, bs).result == Rejected
    ensures HowMany(t, Back(c.undo, c.state, |bs.second|), Reversed(bs.first)) < |Lineage(c.items, c.state.head)|
    ensures bs.second[|bs.second| - 1].previous == ZERO_ID ==> |Lineage(c.items, c.state.head)| == |bs.second|
  {
    SwitchExactly(t, c, PinnedBy(c.items, bs), newHead.num, bs, SwitchOf(t, c, newHead.num, bs));
    RoomIsWithin(t, c, newHead, bs);
    FromTheFirstBlock(c.items, c.state.head, bs.second);
  }

  lemma RoomIsWithin<S, P>(t: Transition<S, P>, c: Chain<S, P>, newHead: BlockId, bs: Branches<P>)
    requires Linked(c.items) && 0 < |bs.second| <= |c.undo| && bs.second <= Lineage(c.items, c.state.head)
    ensures RoomBack(t, c, PinnedBy(c.items, bs), newHead.num, bs) < |Lineage(c.items, c.state.head)|
  {
    GrownKeeps(t, Rewound(c, |bs.second|), newHead.num - |bs.second|, Reversed(bs.first), 0);
    OutIsBounded(c.items, GrownFrom(t, c, newHead.num, bs), AppliedOf(t, c, bs), c.state.head, bs);
  }

  lemma OutIsBounded<S, P>(
      items0: map<BlockId, Block<P>>, grown: Chain<S, P>, n: nat, head: BlockId, bs: Branches<P>)
    requires Linked(items0) && Within(items0, grown.items) && n <= |bs.first|
    requires |bs.second| > 0 && bs.second <= Lineage(items0, head)
    ensures var out := TakenOut(grown, bs, n);
      Room(Alive(out.items, PinnedBy(items0, bs)), Some(bs.second[0])) < |Lineage(items0, head)|
  {
    RoomIsBounded(items0, TakenOut(grown, bs, n).items, head, bs);
  }

  lemma FromTheFirstBlock<P>(items: map<BlockId, Block<P>>, head: BlockId, branch: seq<Block<P>>)
    requires Linked(items) && branch <= Lineage(items, head) && branch != []
    ensures branch[|branch| - 1].previous == ZERO_ID ==> |Lineage(items, head)| == |branch|
  {
    LineageSteps(items, head, |branch| - 1);
  }
}
