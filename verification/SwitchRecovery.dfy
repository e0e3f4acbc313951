/**
 * When a failed fork switch can be taken back (libraries/chain/db_block.cpp), told from the chain before
 * it: by the undo limits that the applied blocks set, and by the lowest block that the fork database has
 * to keep.
 */
module SwitchRecovery {
  import opened Common
  import opened Blocks
  import opened ForkDatabases
  import opened ChainDatabases

  // ---------- the records ----------

  /** With `i` blocks of the branch applied, each further one that applies sets an undo limit that reaches down to the
      parting. */
  ghost predicate LimitsReach<S, P>(t: Transition<S, P>, s: ChainState<S>, blocks: seq<Block<P>>, i: nat)
    decreases |blocks|
  {
    blocks != [] ==>
      match ApplyBlock(t, s, blocks[0])
      case None => true
      case Some(next) => i < UndoLimit(s, blocks[0]) && LimitsReach(t, next, blocks[1..], i + 1)
  }

  /** Every try cuts the records down to the limit before it adds its own. */
  lemma {:induction false} GrownAtMost<S, P>(t: Transition<S, P>, c: Chain<S, P>, top: int, blocks: seq<Block<P>>)
    requires blocks != []
    ensures |Grown(t, c, top, blocks).undo| <= c.limit + HowMany(t, c.state, blocks)
    decreases |blocks|
  {
    if ApplyBlock(t, c.state, blocks[0]).Some? {
      GrownHasFew(t, Tried(t, c, Some(top), blocks[0]), top, blocks[1..]);
    }
  }

  lemma {:induction false} GrownHasFew<S, P>(t: Transition<S, P>, c: Chain<S, P>, top: int, blocks: seq<Block<P>>)
    ensures |Grown(t, c, top, blocks).undo| <= |c.undo| + HowMany(t, c.state, blocks)
    decreases |blocks|
  {
    if blocks != [] && ApplyBlock(t, c.state, blocks[0]).Some? {
      GrownHasFew(t, Tried(t, c, Some(top), blocks[0]), top, blocks[1..]);
    }
  }

  /** When a block fails, there is a record left for each that was applied exactly when all their limits reach. */
  lemma {:induction false} RecordsExactly<S, P>(
      t: Transition<S, P>, c: Chain<S, P>, top: int, blocks: seq<Block<P>>, i: nat)
    requires HowMany(t, c.state, blocks) < |blocks| && i <= |c.undo| && (i > 0 ==> i <= c.limit)
    ensures i + HowMany(t, c.state, blocks) <= |Grown(t, c, top, blocks).undo| <==> LimitsReach(t, c.state, blocks, i)
    decreases |blocks|
  {
    if ApplyBlock(t, c.state, blocks[0]).Some? {
      var next := Tried(t, c, Some(top), blocks[0]);
      if i < next.limit {
        RecordsExactly(t, next, top, blocks[1..], i + 1);
      } else {
        GrownAtMost(t, next, top, blocks[1..]);
      }
    }
  }

  // ---------- the ancestors ----------

  /** What is still held was kept by every size that was set. */
  lemma {:induction false} GrownDrops<S, P>(
      t: Transition<S, P>, c: Chain<S, P>, top: int, blocks: seq<Block<P>>, id: BlockId)
    requires id in Grown(t, c, top, blocks).items
    ensures id in c.items && Wide(t, c.state, blocks, top, id.num)
    decreases |blocks|
  {
    if blocks != [] && ApplyBlock(t, c.state, blocks[0]).Some? {
      GrownDrops(t, Tried(t, c, Some(top), blocks[0]), top, blocks[1..], id);
    }
  }

  /** Walking down `n` blocks passes through what is held. */
  lemma {:induction false} AncestorsAreHeld<P>(
      items: map<BlockId, Block<P>>, items': map<BlockId, Block<P>>, id: BlockId, n: nat)
    requires Linked(items) && Within(items, items') && 0 < n <= Ancestors(items', id)
    ensures n <= |Lineage(items, id)| && Lineage(items, id)[n - 1].id in items'
    decreases n
  {
    if n > 1 { AncestorsAreHeld(items, items', items[id].previous, n - 1); }
  }

  /** Blocks `low` to `n` of a lineage are held. */
  ghost predicate HoldsDown<P>(lineage: seq<Block<P>>, low: nat, n: nat, held: map<BlockId, Block<P>>) {
    n < |lineage| && forall k :: low <= k <= n ==> lineage[k].id in held
  }

  /** A block can be walked down from `n` times exactly when so many of its ancestors are held. */
  lemma WalkExactly<P>(items: map<BlockId, Block<P>>, items': map<BlockId, Block<P>>, id: BlockId, n: nat)
    requires Linked(items) && Within(items, items') && id in items
    ensures n <= Ancestors(items', items[id].previous) <==> HoldsDown(Lineage(items, id), 1, n, items')
  {
    var l, up := Lineage(items, id), items[id].previous;
    assert Lineage(items, up) == l[1..];
    if n <= Ancestors(items', up) {
      if n > 0 { AncestorsAreHeld(items, items', up, n); }
      forall k | 1 <= k <= n ensures k < |l| && l[k].id in items' {
        AncestorsAreHeld(items, items', up, k);
      }
    }
    if HoldsDown(l, 1, n, items') {
      assert forall a :: 0 <= a < n ==> Lineage(items, up)[a] == l[a + 1];
      AncestorsSurvive(items, items', up, n);
    }
  }

  /** Below the parting there is nothing of either branch. */
  lemma BelowParting<P>(items: map<BlockId, Block<P>>, newHead: BlockId, head: BlockId, bs: Branches<P>, k: nat)
    requires Linked(items) && BranchesPart(items, newHead, head, bs) && k < |Lineage(items, head)|
    ensures var a := Lineage(items, head)[k];
      && a.id in items && items[a.id] == a
      && (k < |bs.second| ==> a.id in PinnedBy(items, bs))
      && (k >= |bs.second| ==> a.id !in PinnedBy(items, bs) && a.id !in Ids(bs.first))
  {
    var a := Lineage(items, head)[k];
    LineageSteps(items, head, k);
    PartingNumbers(items, newHead, head, bs);
    if k < |bs.second| {
      assert a == bs.second[k];
    } else {
      forall b | b in bs.first || b in bs.second ensures b.id != a.id {
        if b in bs.first {
          var m: nat :| m < |bs.first| && bs.first[m] == b;
          LineageSteps(items, newHead, m);
        } else {
          var m: nat :| m < |bs.second| && bs.second[m] == b;
          LineageSteps(items, head, m);
        }
      }
    }
  }

  /** The old head can be walked down `n` blocks exactly when that stays in its own branch, which is held on to, or the
      ancestors down there are still in the fork database. */
  lemma RoomExactly<P>(
      items: map<BlockId, Block<P>>, newHead: BlockId, head: BlockId, bs: Branches<P>, n: nat,
      kept: map<BlockId, Block<P>>, alive: map<BlockId, Block<P>>)
    requires Linked(items) && BranchesPart(items, newHead, head, bs) && n < |bs.first| && Within(items, kept)
    requires alive == Alive(kept - Ids(bs.first[..|bs.first| - n]), PinnedBy(items, bs))
    ensures n <= Room(alive, Some(bs.second[0])) <==>
      n < |bs.second| || HoldsDown(Lineage(items, head), |bs.second|, n, kept)
  {
    LineageSteps(items, head, 0);
    WalkExactly(items, alive, head, n);
    forall k: nat | k < |Lineage(items, head)|
      ensures Lineage(items, head)[k].id in alive <==> k < |bs.second| || Lineage(items, head)[k].id in kept
    {
      AliveExactly(items, newHead, head, bs, n, kept, alive, k);
    }
  }

  lemma AliveExactly<P>(
      items: map<BlockId, Block<P>>, newHead: BlockId, head: BlockId, bs: Branches<P>, n: nat,
      kept: map<BlockId, Block<P>>, alive: map<BlockId, Block<P>>, k: nat)
    requires Linked(items) && BranchesPart(items, newHead, head, bs) && n <= |bs.first|
    requires alive == Alive(kept - Ids(bs.first[..|bs.first| - n]), PinnedBy(items, bs))
    requires k < |Lineage(items, head)|
    ensures Lineage(items, head)[k].id in alive <==> k < |bs.second| || Lineage(items, head)[k].id in kept
  {
    BelowParting(items, newHead, head, bs, k);
  }

  // ---------- the switch ----------

  /** A failed switch is taken back: fewer blocks of the new branch apply than it has; each of them sets an undo limit
      that reaches down to the parting; and either they are fewer than the blocks of the old branch, or the old head has
      so many ancestors and no block that is tried has the fork database forget the last of them. */
  ghost predicate CanRecover<S, P>(t: Transition<S, P>, c: Chain<S, P>, newHead: int, bs: Branches<P>)
    requires Linked(c.items) && |bs.second| <= |c.undo|
  {
    var base, blocks, n := Back(c.undo, c.state, |bs.second|), Reversed(bs.first), AppliedOf(t, c, bs);
    && n < |bs.first| && LimitsReach(t, base, blocks, 0)
    && (n < |bs.second| || HasAncestor(t, c, newHead, bs, n))
  }

  /** Some `n` blocks below the old head there is one that stays. */
  ghost predicate HasAncestor<S, P>(t: Transition<S, P>, c: Chain<S, P>, newHead: int, bs: Branches<P>, n: nat)
    requires Linked(c.items) && |bs.second| <= |c.undo|
  {
    && n < |Lineage(c.items, c.state.head)|
    && Wide(t, Back(c.undo, c.state, |bs.second|), Reversed(bs.first), newHead - |bs.second|, c.state.head.num - n)
  }

  lemma AncestorExactly<S, P>(
      t: Transition<S, P>, c: Chain<S, P>, newHead: int, bs: Branches<P>, n: nat, kept: map<BlockId, Block<P>>)
    requires Linked(c.items) && |bs.second| <= |c.undo| && |bs.second| <= n
    requires kept == GrownFrom(t, c, newHead, bs).items
    ensures HoldsDown(Lineage(c.items, c.state.head), |bs.second|, n, kept) <==> HasAncestor(t, c, newHead, bs, n)
  {
    var l, base := Lineage(c.items, c.state.head), Rewound(c, |bs.second|);
    if n < |l| {
      LineageSteps(c.items, c.state.head, n);
      if HasAncestor(t, c, newHead, bs, n) {
        GrownKeeps(t, base, newHead - |bs.second|, Reversed(bs.first), c.state.head.num - n);
        forall k | |bs.second| <= k <= n ensures l[k].id in kept {
          LineageSteps(c.items, c.state.head, k);
        }
      }
      if l[n].id in kept {
        GrownDrops(t, base, newHead - |bs.second|, Reversed(bs.first), l[n].id);
      }
    }
  }

  lemma RoomBackExactly<S, P>(t: Transition<S, P>, c: Chain<S, P>, newHead: BlockId, bs: Branches<P>, n: nat)
    requires Linked(c.items) && BranchesPart(c.items, newHead, c.state.head, bs) && |bs.second| <= |c.undo|
    requires n == AppliedOf(t, c, bs) < |bs.first|
    ensures n <= RoomBack(t, c, PinnedBy(c.items, bs), newHead.num, bs) <==>
      n < |bs.second| || HasAncestor(t, c, newHead.num, bs, n)
  {
    var grown := GrownFrom(t, c, newHead.num, bs);
    GrownKeeps(t, Rewound(c, |bs.second|), newHead.num - |bs.second|, Reversed(bs.first), 0);
    RoomExactly(c.items, newHead, c.state.head, bs, n, grown.items,
      Alive(TakenOut(grown, bs, n).items, PinnedBy(c.items, bs)));
    if |bs.second| <= n { AncestorExactly(t, c, newHead.num, bs, n, grown.items); }
  }

  /** What a switch comes to is decided by the chain before it: the records down to the parting, the blocks that apply,
      the undo limits that these set, and the lowest block that has to be kept. */
  lemma SwitchIsDecided<S, P>(
      t: Transition<S, P>, c: Chain<S, P>, newHead: BlockId, bs: Branches<P>, p: Push<S, P>)
    requires Linked(c.items) && BranchesPart(c.items, newHead, c.state.head, bs)
    requires p == SwitchOf(t, c, newHead.num, bs)
    ensures p.result in {Switched, Rejected, Stuck}
    ensures p.result == Switched <==> |bs.second| <= |c.undo| && AppliedOf(t, c, bs) == |bs.first|
    ensures p.result == Rejected <==> |bs.second| <= |c.undo| && CanRecover(t, c, newHead.num, bs)
  {
    SwitchExactly(t, c, PinnedBy(c.items, bs), newHead.num, bs, p);
    if |bs.second| <= |c.undo| && AppliedOf(t, c, bs) < |bs.first| {
      RecordsExactly(t, Rewound(c, |bs.second|), newHead.num - |bs.second|, Reversed(bs.first), 0);
      RoomBackExactly(t, c, newHead, bs, AppliedOf(t, c, bs));
    }
  }

  // ---------- what is kept of blocks and records ----------

  /** The undo limit that a block sets spans the blocks from the irreversible one to itself; an irreversible number more
      than one above the block makes it wrap around. */
  lemma LimitSpans<S, P>(s: ChainState<S>, b: Block<P>)
    requires b.id.num < 0x1_0000_0000 && s.irreversible < 0x1_0000_0000
    ensures UndoLimit(s, b) < 0x1_0000_0000 + 1
    ensures s.irreversible + UndoLimit(s, b)
      == b.id.num + 1 + if s.irreversible > b.id.num + 1 then 0x1_0000_0000 else 0
  {
  }

  /** After a switch that was not carried through, the fork database holds neither the block that failed nor any above
      it. */
  lemma FailedBlocksAreGone<S, P>(
      t: Transition<S, P>, c: Chain<S, P>, newHead: int, bs: Branches<P>, p: Push<S, P>, b: Block<P>)
    requires 0 < |bs.second| <= |c.undo| && p == SwitchOf(t, c, newHead, bs) && p.result != Switched
    requires b in bs.first[..|bs.first| - AppliedOf(t, c, bs)]
    ensures b.id !in p.chain.items
  {
    var n := AppliedOf(t, c, bs);
    var out := TakenOut(GrownFrom(t, c, newHead, bs), bs, n);
    assert b.id in Ids(bs.first[..|bs.first| - n]) && b.id !in out.items;
    if p.result == Rejected {
      GrownKeeps(t, Rewound(out, n), bs.second[0].id.num - n, Reversed(bs.second), 0);
    }
  }

  /** A block on the head is the newest record's, or is refused: then nothing has changed but that it is not held, the
      records are cut down to the limit, and what is too far below the fork head for the limit it sets is forgotten. */
  lemma ExtendsOrForgets<S, P>(t: Transition<S, P>, c: Chain<S, P>, b: Block<P>, top: Option<int>)
    ensures var p := Extends(t, c, top, b);
      if p.result == Extended then
        p.chain.state.head == b.id && b.previous == c.state.head && p.chain.undo == Trim(c.undo, c.limit) + [c.state]
      else
        && p.result == Rejected && p.chain.state == c.state && p.chain.undo == Trim(c.undo, c.limit)
        && b.id !in p.chain.items
        && forall id :: id in c.items && id != b.id && (top.None? || top.value <= id.num + UndoLimit(c.state, b)) ==>
             id in p.chain.items
  {
  }
}
