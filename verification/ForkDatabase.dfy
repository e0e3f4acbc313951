/**
 * The fork database (libraries/chain/fork_database.cpp): the recent blocks of every branch,
 * and the walk that finds where two branches part.
 */
module Blocks {

  /** An id starts with the block's number; the digest stands for the rest of the hash. */
  datatype BlockId = BlockId(num: nat, digest: nat)

  /** The id that no block has; it is the `previous` of the first block. */
  const ZERO_ID := BlockId(0, 0)

  datatype Block<P> = Block(id: BlockId, previous: BlockId, body: P)

  /** A block's number is one more than the number in the id it builds on. */
  predicate Numbered<P>(b: Block<P>) {
    b.id.num == b.previous.num + 1
  }

}

module ForkDatabases {
  import opened Common
  import opened Blocks

  datatype PushError = TooOld | Unlinkable
  datatype PushOutcome<P> = Head(head: Block<P>) | Failed(error: PushError)
  datatype Branches<P> = Branches(first: seq<Block<P>>, second: seq<Block<P>>)

  ghost predicate Linked<P>(items: map<BlockId, Block<P>>) {
    forall id :: id in items ==> items[id].id == id && Numbered(items[id])
  }

  /** The block named `id` and, newest first, all of its ancestors the database still holds. */
  ghost function Lineage<P>(items: map<BlockId, Block<P>>, id: BlockId): seq<Block<P>>
    requires Linked(items)
    decreases id.num
  {
    if id in items then [items[id]] + Lineage(items, items[id].previous) else []
  }

  lemma {:induction false} LineageSteps<P>(items: map<BlockId, Block<P>>, id: BlockId, i: nat)
    requires Linked(items) && i < |Lineage(items, id)|
    ensures var b := Lineage(items, id)[i];
      && b.id in items && items[b.id] == b
      && b.id.num + i == id.num
      && (i == 0 ==> b.id == id)
      && (i + 1 < |Lineage(items, id)| <==> b.previous in items)
      && (i + 1 < |Lineage(items, id)| ==> Lineage(items, id)[i + 1].id == b.previous)
    decreases id.num
  {
    if i > 0 { LineageSteps(items, items[id].previous, i - 1); }
  }

  /** Two branches end where their blocks first have the same parent. */
  ghost predicate Parting<P>(first: seq<Block<P>>, second: seq<Block<P>>, i: nat, j: nat) {
    i < |first| && j < |second| && first[i].previous == second[j].previous
  }

  /** The blocks whose number is not below `bound`. */
  ghost function Kept<P>(items: map<BlockId, Block<P>>, bound: int): map<BlockId, Block<P>> {
    map id | id in items && bound <= id.num :: items[id]
  }

  ghost predicate FirstParting<P>(first: seq<Block<P>>, second: seq<Block<P>>, i: nat, j: nat) {
    Parting(first, second, i, j) && NoPartingAbove(first, second, i, j)
  }

  ghost predicate NoPartingAbove<P>(first: seq<Block<P>>, second: seq<Block<P>>, i: nat, j: nat) {
    forall a: nat, b: nat :: a < i || b < j ==> !Parting(first, second, a, b)
  }

  /** What fetch_branch_from returns: two exact parent chains, down to the first place where they have one parent. */
  ghost predicate BranchesPart<P>(items: map<BlockId, Block<P>>, first: BlockId, second: BlockId, bs: Branches<P>)
    requires Linked(items)
  {
    && 0 < |bs.first| && bs.first <= Lineage(items, first)
    && 0 < |bs.second| && bs.second <= Lineage(items, second)
    && FirstParting(Lineage(items, first), Lineage(items, second), |bs.first| - 1, |bs.second| - 1)
  }

  /** The branches of two heads, if they part among the blocks held. */
  ghost function BranchesOf<P>(items: map<BlockId, Block<P>>, first: BlockId, second: BlockId): Option<Branches<P>>
    requires Linked(items)
  {
    var l1, l2 := Lineage(items, first), Lineage(items, second);
    if i: nat, j: nat :| FirstParting(l1, l2, i, j) then Some(Branches(l1[..i + 1], l2[..j + 1])) else None
  }

  lemma BranchesAreUnique<P>(items: map<BlockId, Block<P>>, first: BlockId, second: BlockId, bs: Branches<P>)
    requires Linked(items) && BranchesPart(items, first, second, bs)
    ensures BranchesOf(items, first, second) == Some(bs)
  {
    var l1, l2 := Lineage(items, first), Lineage(items, second);
    assert FirstParting(l1, l2, |bs.first| - 1, |bs.second| - 1);
    forall i: nat, j: nat | FirstParting(l1, l2, i, j) ensures i == |bs.first| - 1 && j == |bs.second| - 1 {
      assert Parting(l1, l2, i, j) && Parting(l1, l2, |bs.first| - 1, |bs.second| - 1);
    }
    assert bs.first == l1[..|bs.first|] && bs.second == l2[..|bs.second|];
  }

  /** What linking a block to the tree comes to: refused, or the highest block. */
  ghost function Pushed<P>(items: map<BlockId, Block<P>>, head: Option<Block<P>>, maxSize: nat,
      b: Block<P>): PushOutcome<P> {
    if head.Some? && b.id.num + maxSize <= head.value.id.num then Failed(TooOld)
    else if head.Some? && b.previous != ZERO_ID && b.previous !in items then Failed(Unlinkable)
    else if head.Some? && b.id.num <= head.value.id.num then Head(head.value)
    else Head(b)
  }

  /** The blocks held after a block was linked: it is added, and a higher one moves the window. */
  ghost function PushedItems<P>(items: map<BlockId, Block<P>>, head: Option<Block<P>>, maxSize: nat, b: Block<P>)
      : (r: map<BlockId, Block<P>>)
    requires Linked(items) && Numbered(b)
    ensures Linked(r)
  {
    Kept(if b.id in items then items else items[b.id := b],
         if head.Some? && b.id.num > head.value.id.num then b.id.num - maxSize else 0)
  }

  /** A pushed block is held with all others, but for those more than the window below it when it is the highest. */
  lemma PushKeepsWindow<P>(
      items: map<BlockId, Block<P>>, head: Option<Block<P>>, maxSize: nat, b: Block<P>, id: BlockId)
    requires Linked(items) && Numbered(b)
    ensures var r, isHighest := PushedItems(items, head, maxSize, b), head.Some? && b.id.num > head.value.id.num;
      && (id in r <==> (id in items || id == b.id) && (isHighest ==> b.id.num <= id.num + maxSize))
      && (id in r && id in items ==> r[id] == items[id]) && (id in r && id !in items ==> r[id] == b)
  {
  }

  /** The head is a block of the highest number, of equals the one that came first. */
  lemma HighestIsHead<P>(items: map<BlockId, Block<P>>, head: Option<Block<P>>, maxSize: nat, b: Block<P>)
    ensures var r := Pushed(items, head, maxSize, b);
      r.Head? ==>
        && r.head.id.num >= b.id.num && (head.Some? ==> r.head.id.num >= head.value.id.num)
        && (r.head == b || Some(r.head) == head)
        && (head.Some? && r.head.id.num == head.value.id.num ==> Some(r.head) == head)
  {
  }

  ghost function HeadNum<P>(head: Option<Block<P>>): Option<int> {
    if head.Some? then Some(head.value.id.num) else None
  }

  /** The blocks that are not too far below the head. */
  ghost function SizedTo<P>(items: map<BlockId, Block<P>>, top: Option<int>, size: nat): map<BlockId, Block<P>> {
    if top.None? then items else Kept(items, top.value - size)
  }

  /** How many blocks there are from `id` downwards. */
  ghost function Ancestors<P>(items: map<BlockId, Block<P>>, id: BlockId): nat
    decreases id.num
  {
    if id in items && items[id].previous.num < id.num then 1 + Ancestors(items, items[id].previous) else 0
  }

  lemma {:induction false} AncestorsAreLineage<P>(items: map<BlockId, Block<P>>, id: BlockId)
    requires Linked(items)
    ensures Ancestors(items, id) == |Lineage(items, id)|
    decreases id.num
  {
    if id in items { AncestorsAreLineage(items, items[id].previous); }
  }

  /** How often the head can be moved to its parent. */
  ghost function Room<P>(items: map<BlockId, Block<P>>, head: Option<Block<P>>): nat {
    if head.None? then 0 else Ancestors(items, head.value.previous)
  }

  /** The blocks that can be reached: those of the index, and those that a branch in use keeps alive. */
  ghost function Alive<P>(items: map<BlockId, Block<P>>, pinned: map<BlockId, Block<P>>): map<BlockId, Block<P>> {
    items + pinned
  }

  function PinnedBy<P(==)>(items: map<BlockId, Block<P>>, bs: Branches<P>): map<BlockId, Block<P>> {
    map id | id in items && (items[id] in bs.first || items[id] in bs.second) :: items[id]
  }

  ghost predicate Compatible<P>(items: map<BlockId, Block<P>>, pinned: map<BlockId, Block<P>>) {
    forall id :: id in items && id in pinned ==> items[id] == pinned[id]
  }

  /** A block held under the id of `b` is `b`. */
  ghost predicate Agrees<P>(items: map<BlockId, Block<P>>, b: Block<P>) {
    b.id in items ==> items[b.id] == b
  }

  class ForkDatabase<P(==)> {
    var items: map<BlockId, Block<P>>
    var head: Option<Block<P>>
    var maxSize: nat
    var pinned: map<BlockId, Block<P>>  // blocks that a branch in use holds on to, in the index or not

    ghost predicate Valid() reads this {
      && Linked(items) && Linked(pinned) && Compatible(items, pinned)
      && (head.Some? ==> Numbered(head.value) && Agrees(items, head.value) && Agrees(pinned, head.value))
    }

    constructor ()
      ensures Valid() && items == map[] && head == None && maxSize == 1024 && pinned == map[]
    {
      items, head, maxSize, pinned := map[], None, 1024, map[];
    }

    /** Holding on to two branches, as whoever has fetched them does. */
    method Pin(bs: Branches<P>)
      requires Valid()
      modifies this`pinned
      ensures Valid() && pinned == PinnedBy(items, bs)
      ensures Alive(items, pinned) == items
    {
      pinned := PinnedBy(items, bs);
    }

    method Unpin()
      requires Valid()
      modifies this`pinned
      ensures Valid() && pinned == map[]
    {
      pinned := map[];
    }

    /** Links a block to the tree and returns the highest block; an old or unlinked block is refused. */
    method PushBlock(b: Block<P>) returns (r: PushOutcome<P>)
      requires Valid() && pinned == map[] && Numbered(b) && Agrees(items, b)
      requires head.Some? && head.value.id == b.id ==> head.value == b
      modifies this`items, this`head
      ensures Valid()
      ensures r == Pushed(old(items), old(head), maxSize, b)
      ensures r == Failed(TooOld) <==>
        old(head).Some? && b.id.num + maxSize <= old(head).value.id.num
      ensures r == Failed(Unlinkable) <==>
        && old(head).Some? && b.id.num + maxSize > old(head).value.id.num
        && b.previous != ZERO_ID && b.previous !in old(items)
      ensures r.Failed? ==> items == old(items) && head == old(head)
      ensures r.Head? ==> head == Some(r.head)
      ensures r.Head? ==> items == PushedItems(old(items), old(head), maxSize, b)
    {
      if head.Some? && b.id.num <= (if head.value.id.num > maxSize then head.value.id.num - maxSize else 0) {
        return Failed(TooOld);
      }
      if head.Some? && b.previous != ZERO_ID && b.previous !in items {
        return Failed(Unlinkable);
      }
      if b.id !in items {
        items := items[b.id := b];
      }
      if head == None {
        head := Some(b);
      } else if b.id.num > head.value.id.num {
        head := Some(b);
        var minNum := b.id.num - (if maxSize < b.id.num then maxSize else b.id.num);
        items := map id | id in items && minNum <= id.num :: items[id];
      }
      r := Head(head.value);
    }

    /** Moves the head to its parent; refused when the parent is gone. */
    method PopBlock() returns (ok: bool)
      requires Valid()
      modifies this`head
      ensures Valid()
      ensures ok == (old(head).Some? && old(head).value.previous in Alive(items, pinned))
      ensures head == if ok then Some(Alive(items, pinned)[old(head).value.previous]) else old(head)
    {
      if head == None { return false; }
      var parent := head.value.previous;
      if parent in items {
        head := Some(items[parent]);
      } else if parent in pinned {
        head := Some(pinned[parent]);
      } else {
        return false;
      }
      ok := true;
    }

    method SetHead(b: Block<P>)
      requires Valid() && Numbered(b) && Agrees(items, b) && Agrees(pinned, b)
      modifies this`head
      ensures Valid() && head == Some(b)
    {
      head := Some(b);
    }

    method Remove(id: BlockId)
      requires Valid()
      modifies this`items
      ensures Valid() && items == old(items) - {id}
    {
      items := items - {id};
    }

    /** Forgets everything more than `size` below the head. */
    method SetMaxSize(size: nat)
      requires Valid()
      modifies this`maxSize, this`items
      ensures Valid() && maxSize == size
      ensures items == SizedTo(old(items), HeadNum(head), size)
    {
      maxSize := size;
      if head == None { return; }
      var bound := if head.value.id.num > size then head.value.id.num - size else 0;
      items := map id | id in items && bound <= id.num :: items[id];
    }

    /** Both branches are exact parent chains, down to the first place where their blocks have the same
        parent; None when there is no such place among the blocks the database holds. */
    method FetchBranchFrom(first: BlockId, second: BlockId) returns (r: Option<Branches<P>>)
      requires Valid() && pinned == map[]
      ensures r.None? <==> forall i: nat, j: nat :: !Parting(Lineage(items, first), Lineage(items, second), i, j)
      ensures r.Some? ==> BranchesPart(items, first, second, r.value)
      ensures r == BranchesOf(items, first, second)
    {
      PartingNums(items, first, second);
      if first !in items || second !in items { return None; }
      var w1 := WalkDown(first, second.num);
      if w1 == None { return None; }
      var w2 := WalkDown(second, w1.value.1.id.num);
      if w2 == None { return None; }
      r := WalkTogether(first, second, Branches(w1.value.0, w2.value.0), w1.value.1, w2.value.1);
      if r.Some? { BranchesAreUnique(items, first, second, r.value); }
    }

    /** The third loop: from two blocks with the same number, one step at a time on both branches. */
    method WalkTogether(ghost first: BlockId, ghost second: BlockId, above: Branches<P>, f0: Block<P>, s0: Block<P>)
      returns (r: Option<Branches<P>>)
      requires Valid() && f0.id.num == s0.id.num
      requires |above.first| < |Lineage(items, first)| && |above.second| < |Lineage(items, second)|
      requires f0 == Lineage(items, first)[|above.first|] && s0 == Lineage(items, second)[|above.second|]
      requires above.first <= Lineage(items, first) && above.second <= Lineage(items, second)
      requires NoPartingAbove(Lineage(items, first), Lineage(items, second), |above.first|, |above.second|)
      ensures r.None? ==> forall i: nat, j: nat :: !Parting(Lineage(items, first), Lineage(items, second), i, j)
      ensures r.Some? ==> BranchesPart(items, first, second, r.value)
    {
      ghost var l1, l2 := Lineage(items, first), Lineage(items, second);
      PartingNums(items, first, second);
      var bs, f, s := above, f0, s0;
      while f.previous != s.previous
        invariant |bs.first| < |l1| && f == l1[|bs.first|] && bs.first <= l1
        invariant |bs.second| < |l2| && s == l2[|bs.second|] && bs.second <= l2
        invariant s.id.num == f.id.num
        invariant NoPartingAbove(l1, l2, |bs.first|, |bs.second|)
        decreases s.id.num
      {
        LineageSteps(items, first, |bs.first|);
        LineageSteps(items, second, |bs.second|);
        bs := Branches(bs.first + [f], bs.second + [s]);
        assert NoPartingAbove(l1, l2, |bs.first|, |bs.second|);
        if f.previous !in items || s.previous !in items { return None; }
        f, s := items[f.previous], items[s.previous];
        LineageSteps(items, first, |bs.first|);
        LineageSteps(items, second, |bs.second|);
      }
      assert Parting(l1, l2, |bs.first|, |bs.second|);
      r := Some(Branches(bs.first + [f], bs.second + [s]));
    }

    /** The first two loops of fetch_branch_from: walk from a block to the ancestor numbered `num` (or stay,
        if the block is not above it); None when an ancestor on the way is no longer held. */
    method WalkDown(id: BlockId, num: nat) returns (r: Option<(seq<Block<P>>, Block<P>)>)
      requires Valid() && id in items
      ensures r.None? ==> id.num > num && |Lineage(items, id)| <= id.num - num
      ensures r.Some? ==> var l, i := Lineage(items, id), if id.num > num then id.num - num else 0;
        && i < |l| && r.value == (l[..i], l[i]) && l[i].id.num + i == id.num
    {
      ghost var l, i: nat := Lineage(items, id), 0;
      var walked, b := [], items[id];
      LineageSteps(items, id, 0);
      while b.id.num > num
        invariant i < |l| && b == l[i] && walked == l[..i] && b.id.num + i == id.num
        invariant i > 0 ==> b.id.num >= num
        decreases b.id.num
      {
        LineageSteps(items, id, i);
        walked := walked + [b];
        if b.previous !in items { return None; }
        b, i := items[b.previous], i + 1;
        LineageSteps(items, id, i);
      }
      r := Some((walked, b));
    }
  }

  /** Two blocks with the same parent have the same number. */
  lemma PartingNums<P>(items: map<BlockId, Block<P>>, first: BlockId, second: BlockId)
    requires Linked(items)
    ensures forall i: nat, j: nat | Parting(Lineage(items, first), Lineage(items, second), i, j) ::
      first.num - i == second.num - j
  {
    forall i: nat, j: nat | Parting(Lineage(items, first), Lineage(items, second), i, j)
      ensures first.num - i == second.num - j
    {
      LineageSteps(items, first, i);
      LineageSteps(items, second, j);
    }
  }

  // ---------- what the two branches say about common ancestors ----------

  /** The parent where the branches end is the most recent common ancestor, except when one of the two
      heads is an ancestor of the other: then both branches run one block further, through that head. */
  lemma PartingIsMostRecent<P>(items: map<BlockId, Block<P>>, first: BlockId, second: BlockId, i: nat, j: nat)
    requires Linked(items)
    requires FirstParting(Lineage(items, first), Lineage(items, second), i, j)
    ensures var l1, l2 := Lineage(items, first), Lineage(items, second);
      && (l1[i] == l2[j] <==> items[first] in l2 || items[second] in l1)
      && (forall c :: c in l1 && c in l2 ==> c.id.num <= l1[i].previous.num || c == l1[i] == l2[j])
  {
    var l1, l2 := Lineage(items, first), Lineage(items, second);
    LineageSteps(items, first, i);
    LineageSteps(items, second, j);
    LineageSteps(items, first, 0);
    LineageSteps(items, second, 0);
    forall c | c in l1 && c in l2
      ensures c.id.num <= l1[i].previous.num || (c == l1[i] == l2[j] && (i == 0 || j == 0))
    {
      CommonIsBelow(items, first, second, i, j, c);
    }
    if l1[i] == l2[j] {
      assert l1[i] in l1 && l2[j] in l2;
    }
    if items[first] in l2 {
      assert l1[0] in l1;
      assert items[first].id.num == first.num;
    }
    if items[second] in l1 {
      assert l2[0] in l2;
    }
  }

  lemma CommonIsBelow<P>(items: map<BlockId, Block<P>>, first: BlockId, second: BlockId, i: nat, j: nat, c: Block<P>)
    requires Linked(items)
    requires var l1, l2 := Lineage(items, first), Lineage(items, second);
      FirstParting(l1, l2, i, j) && c in l1 && c in l2
    ensures var l1, l2 := Lineage(items, first), Lineage(items, second);
      c.id.num <= l1[i].previous.num || (c == l1[i] == l2[j] && (i == 0 || j == 0))
  {
    var l1, l2 := Lineage(items, first), Lineage(items, second);
    var a: nat :| a < |l1| && l1[a] == c;
    var b: nat :| b < |l2| && l2[b] == c;
    LineageSteps(items, first, i);
    LineageSteps(items, second, j);
    LineageSteps(items, first, a);
    LineageSteps(items, second, b);
    assert Parting(l1, l2, a, b);
    if a == i && b == j && i > 0 && j > 0 {
      LineageSteps(items, first, i - 1);
      LineageSteps(items, second, j - 1);
      assert Parting(l1, l2, i - 1, j - 1);
    }
  }
}
