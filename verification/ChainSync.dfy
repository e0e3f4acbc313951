/**
 * Chain synchronisation (libraries/app/application.cpp): one node summarises its chain in a
 * synopsis, the other answers with the ids that follow the last entry it recognises.
 */
module ChainSync {
  import opened Arithmetic
  import opened Common
  import opened Blocks

  /** The main chain by number: entry i is the id of block i + 1. */
  type Chain = seq<BlockId>

  ghost predicate NumberedChain(chain: Chain) {
    forall i :: 0 <= i < |chain| ==> chain[i].num == i + 1
  }

  /** What the node asking for ids presents as its chain: the main chain up to the fork point, then the fork. */
  ghost function Presented(chain: Chain, nonForkHigh: nat, fork: seq<BlockId>): Chain
    requires nonForkHigh <= |chain|
  {
    chain[..nonForkHigh] + fork
  }

  // ---------- the synopsis ----------

  /** Each entry is halfway between the previous one and the end, rounded up. */
  function NextNum(low: nat, trueHigh: nat): nat
    requires low <= trueHigh
  {
    low + (trueHigh - low + 2) / 2
  }

  /** The block numbers in the synopsis. */
  function SynopsisNums(low: nat, high: nat, trueHigh: nat): (nums: seq<nat>)
    requires low <= high <= trueHigh
    ensures nums != [] && nums[0] == low
    decreases high - low
  {
    var next := NextNum(low, trueHigh);
    [low] + if next <= high then SynopsisNums(next, high, trueHigh) else []
  }

  /** The number of times `n` can be halved before it is 0: its binary logarithm, rounded down, plus one. */
  function BitLength(n: nat): nat {
    if n == 0 then 0 else 1 + BitLength(n / 2)
  }

  function Pow2(n: nat): nat {
    if n == 0 then 1 else 2 * Pow2(n - 1)
  }

  lemma {:induction false} BitLengthIsLog(n: nat)
    requires n > 0
    ensures Pow2(BitLength(n) - 1) <= n < Pow2(BitLength(n))
  {
    if n > 1 { BitLengthIsLog(n / 2); }
  }

  lemma {:induction false} NumsShape(low: nat, high: nat, trueHigh: nat)
    requires low <= high <= trueHigh
    ensures var nums := SynopsisNums(low, high, trueHigh);
      && (forall i, j :: 0 <= i < j < |nums| ==> nums[i] < nums[j])
      && (forall i :: 0 <= i < |nums| ==> low <= nums[i] <= high)
      && |nums| <= BitLength(trueHigh - low + 1)
    decreases high - low
  {
    var next := NextNum(low, trueHigh);
    if next <= high {
      NumsShape(next, high, trueHigh);
      assert (trueHigh - low + 1) / 2 == trueHigh - next + 1;
    }
  }

  /** Below any block in the summarised range there is an entry no further down than the block is from the end. */
  lemma {:induction false} SomeEntryIsNear(low: nat, high: nat, trueHigh: nat, f: nat) returns (i: nat)
    requires low <= high <= trueHigh && low <= f <= high
    ensures var nums := SynopsisNums(low, high, trueHigh);
      && i < |nums| && low <= nums[i] <= f
      && (forall j :: i < j < |nums| ==> f < nums[j])
      && f - nums[i] <= trueHigh - f
    decreases high - low
  {
    var next := NextNum(low, trueHigh);
    if next <= high && next <= f {
      var k := SomeEntryIsNear(next, high, trueHigh, f);
      i := k + 1;
    } else {
      i := 0;
      if next <= high { NumsShape(next, high, trueHigh); }
    }
  }

  /** OutOfRange: an element past the end of the fork history is read. */
  datatype Synopsis = Synopsis(ids: seq<BlockId>) | OlderThanUndoHistory | NotLinked | OutOfRange

  /** What get_block_ids_on_fork returns: the fork's ids, newest first, and then the common ancestor. */
  ghost predicate ForkIds(chain: Chain, ids: seq<BlockId>) {
    && |ids| >= 2 && ids[|ids| - 1].num <= |chain|
    && forall i :: 0 <= i < |ids| - 1 ==> ids[i].num == ids[i + 1].num + 1
  }

  /** The part of the chain that is summarised, and from where; the fork is oldest first. */
  datatype Range = Range(low: nat, nonForkHigh: nat, fork: seq<BlockId>)

  /** last_non_undoable_block_num: the records of open sessions count too, so the 32-bit difference can wrap. */
  function LastNonUndoable(head: nat, undoSize: nat): nat {
    (head - undoSize) % 0x1_0000_0000
  }

  predicate Included(chain: Chain, id: BlockId) {
    1 <= id.num <= |chain| && chain[id.num - 1] == id
  }

  /** Where the synopsis starts and ends; no range for a fork that parts below the undo history. */
  function ChosenRange(chain: Chain, undoSize: nat, reference: BlockId, forkIds: seq<BlockId>): Option<Range>
    requires reference != ZERO_ID && !Included(chain, reference) ==> forkIds != []
  {
    var low := LastNonUndoable(|chain|, undoSize);
    if reference == ZERO_ID then Some(Range(low, |chain|, []))
    else if Included(chain, reference) then Some(Range(Min(reference.num, low), reference.num, []))
    else
      var ancestor := forkIds[|forkIds| - 1];
      if ancestor.num < low then None
      else Some(Range(low, ancestor.num, Reversed(forkIds[..|forkIds| - 1])))
  }

  /** Where a synopsis starts and ends, as long as there are no more undo records than blocks: from the last block that
      cannot be undone, or from the reference if that is older, to the reference or the head; on a fork, up to its head,
      unless it parts from the chain below that block. */
  lemma RangeFollowsReference(chain: Chain, undoSize: nat, reference: BlockId, forkIds: seq<BlockId>)
    requires NumberedChain(chain) && undoSize <= |chain| < 0x1_0000_0000
    requires reference != ZERO_ID && !Included(chain, reference) ==> ForkIds(chain, forkIds)
    ensures var r, undoable := ChosenRange(chain, undoSize, reference, forkIds), |chain| - undoSize;
      if reference == ZERO_ID then r == Some(Range(undoable, |chain|, []))
      else if 1 <= reference.num <= |chain| && chain[reference.num - 1] == reference then
        r == Some(Range(if reference.num < undoable then reference.num else undoable, reference.num, []))
      else
        var ancestor := forkIds[|forkIds| - 1].num;
        && (r == None <==> ancestor < undoable)
        && (r.Some? ==>
              && r.value.low == undoable && r.value.nonForkHigh == ancestor && |r.value.fork| == |forkIds| - 1
              && forall i :: 0 <= i < |r.value.fork| ==> r.value.fork[i] == forkIds[|forkIds| - 2 - i])
  {
  }

  /** What get_blockchain_synopsis returns; `forkIds` is None when the fork's history cannot be found. */
  ghost predicate IsSynopsis(
      chain: Chain, undoSize: nat, reference: BlockId, forkIds: Option<seq<BlockId>>, after: nat, r: Synopsis)
    requires forkIds.Some? ==> forkIds.value != []
  {
    if reference == ZERO_ID && |chain| == 0 then r == Synopsis([])
    else if reference != ZERO_ID && !Included(chain, reference) && forkIds == None then r == NotLinked
    else match ChosenRange(chain, undoSize, reference, if forkIds.Some? then forkIds.value else [ZERO_ID])
      case None => r == OlderThanUndoHistory
      case Some(range) => IsSummary(chain, range, after, r)
  }

  ghost predicate IsSummary(chain: Chain, range: Range, after: nat, r: Synopsis) {
    var low, high := if range.low == 0 then 1 else range.low, range.nonForkHigh + |range.fork|;
    && range.nonForkHigh <= |chain|
    && if low > high then r == OutOfRange
       else
         && r.Synopsis?
         && Summarises(r.ids, Presented(chain, range.nonForkHigh, range.fork), SynopsisNums(low, high, high + after))
  }

  /** get_blockchain_synopsis.  Every index into the fork history is in range, except when no reference is given and
      there are more undo records than blocks, as with one block and one pending transaction. */
  method GetBlockchainSynopsis(chain: Chain, undoSize: nat, reference: BlockId, forkIds: Option<seq<BlockId>>,
      after: nat)
    returns (r: Synopsis)
    requires NumberedChain(chain) && |chain| < 0x1_0000_0000 && undoSize < 0x1_0000_0000
    requires forkIds.Some? ==> ForkIds(chain, forkIds.value)
    ensures IsSynopsis(chain, undoSize, reference, forkIds, after, r)
    ensures r == OutOfRange <==> reference == ZERO_ID && chain != [] && undoSize > |chain|
  {
    WrappedIsAbove(|chain|, undoSize);
    var low: nat := LastNonUndoable(|chain|, undoSize);
    var nonForkHigh: nat;
    var fork: seq<BlockId> := [];
    if reference != ZERO_ID {
      if Included(chain, reference) {
        nonForkHigh := reference.num;
        if reference.num < low {
          low := reference.num;
        }
      } else {
        if forkIds == None { return NotLinked; }
        var ids := forkIds.value;
        fork := Reversed(ids[..|ids| - 1]);
        nonForkHigh := ids[|ids| - 1].num;
        if nonForkHigh < low {
          return OlderThanUndoHistory;
        }
      }
    } else {
      nonForkHigh := |chain|;
      if nonForkHigh == 0 {
        return Synopsis([]);
      }
    }
    r := MakeSynopsis(chain, fork, low, nonForkHigh, after);
  }

  /** The difference wraps to a number above every block exactly when there are more records than blocks. */
  lemma WrappedIsAbove(head: nat, undoSize: nat)
    requires head < 0x1_0000_0000 && undoSize < 0x1_0000_0000
    ensures LastNonUndoable(head, undoSize) > head <==> undoSize > head
  {
  }

  /** One block and the record of a pending session: the synopsis would start at the highest 32-bit number. */
  lemma PendingSessionWraps(chain: Chain, after: nat)
    requires |chain| == 1
    ensures ChosenRange(chain, 2, ZERO_ID, []) == Some(Range(0xFFFF_FFFF, 1, []))
    ensures forall r :: IsSynopsis(chain, 2, ZERO_ID, None, after, r) ==> r == OutOfRange
  {
  }

  /** What the range presents is a chain by number, so the entries say where they are. */
  lemma {:induction false} PresentedIsNumbered(chain: Chain, forkIds: seq<BlockId>)
    requires NumberedChain(chain) && ForkIds(chain, forkIds)
    ensures NumberedChain(Presented(chain, forkIds[|forkIds| - 1].num, Reversed(forkIds[..|forkIds| - 1])))
  {
    var n := |forkIds| - 1;
    var base, fork := forkIds[n].num, Reversed(forkIds[..n]);
    forall i | 0 <= i < n ensures fork[i].num == base + i + 1 {
      ForkNumber(chain, forkIds, n - 1 - i);
    }
  }

  lemma {:induction false} ForkNumber(chain: Chain, ids: seq<BlockId>, i: nat)
    requires ForkIds(chain, ids) && i < |ids|
    ensures ids[i].num == ids[|ids| - 1].num + |ids| - 1 - i
    decreases |ids| - i
  {
    if i + 1 < |ids| { ForkNumber(chain, ids, i + 1); }
  }

  /** The loop of get_blockchain_synopsis, once the numbers are known: ids below the fork point come from the main
      chain, the others from the fork. */
  method MakeSynopsis(chain: Chain, fork: seq<BlockId>, lowBlock: nat, nonForkHigh: nat, after: nat)
      returns (r: Synopsis)
    requires nonForkHigh <= |chain| && nonForkHigh + |fork| > 0
    requires fork != [] ==> lowBlock <= nonForkHigh
    ensures IsSummary(chain, Range(lowBlock, nonForkHigh, fork), after, r)
    ensures r == OutOfRange <==> lowBlock > nonForkHigh + |fork|
  {
    var high := nonForkHigh + |fork|;
    var low := if lowBlock == 0 then 1 else lowBlock;
    var trueHigh := high + after;
    ghost var start, ours := low, Presented(chain, nonForkHigh, fork);
    ghost var done: seq<nat> := [];
    var synopsis: seq<BlockId> := [];
    var first := true;
    assert Rest(start, high, trueHigh) == done + Rest(low, high, trueHigh);
    while true
      invariant 1 <= low && Summarises(synopsis, ours, done) && (first ==> low == start && done == [])
      invariant !first ==> start <= high
      invariant Rest(start, high, trueHigh) == done + Rest(low, high, trueHigh)
      decreases high - low
    {
      if low > high && !first { break; }  // the test comes after the first round
      first := false;
      if low > nonForkHigh && low - nonForkHigh - 1 >= |fork| { return OutOfRange; }
      RestSteps(done, low, high, trueHigh);
      SummarisesMore(synopsis, ours, done, low);
      if low <= nonForkHigh {
        assert chain[low - 1] == ours[low - 1];
        synopsis := synopsis + [chain[low - 1]];
      } else {
        assert fork[low - nonForkHigh - 1] == ours[low - 1];
        synopsis := synopsis + [fork[low - nonForkHigh - 1]];
      }
      done := done + [low];
      low := NextNum(low, trueHigh);
    }
    r := Synopsis(synopsis);
  }

  /** The numbers still to come when the loop is at `low`. */
  ghost function Rest(low: nat, high: nat, trueHigh: nat): seq<nat>
    requires high <= trueHigh
  {
    if low <= high then SynopsisNums(low, high, trueHigh) else []
  }

  lemma RestSteps(done: seq<nat>, low: nat, high: nat, trueHigh: nat)
    requires low <= high <= trueHigh
    ensures done + Rest(low, high, trueHigh) == (done + [low]) + Rest(NextNum(low, trueHigh), high, trueHigh)
  {
  }

  lemma SummarisesMore(synopsis: seq<BlockId>, chain: Chain, nums: seq<nat>, num: nat)
    requires Summarises(synopsis, chain, nums) && 1 <= num <= |chain|
    ensures Summarises(synopsis + [chain[num - 1]], chain, nums + [num])
  {
  }

  /** The synopsis holds the ids of the numbered blocks. */
  ghost predicate Summarises(synopsis: seq<BlockId>, chain: Chain, nums: seq<nat>) {
    && |synopsis| == |nums|
    && forall i :: 0 <= i < |nums| ==> 1 <= nums[i] <= |chain| && synopsis[i] == chain[nums[i] - 1]
  }

  // ---------- the reply ----------

  /** Thrown: the block log has no id for a number. */
  datatype Reply = Reply(ids: seq<BlockId>, remaining: nat) | Unreachable | Thrown

  /** The node that answers: its chain, what is left in the block log's index above its head, and the blocks it
      knows. */
  datatype Node = Node(chain: Chain, above: map<nat, BlockId>, known: set<BlockId>)

  ghost predicate ValidNode(n: Node) {
    && NumberedChain(n.chain)
    && (forall k :: k in n.above ==> k > |n.chain|)
    && (forall k :: k in n.known && k != ZERO_ID ==> k.num > 0)
  }

  /** get_block_id_for_num */
  function IdAt(n: Node, num: nat): Option<BlockId> {
    if 1 <= num <= |n.chain| then Some(n.chain[num - 1])
    else if num in n.above then Some(n.above[num])
    else None
  }

  datatype Answer = Yes | No | Throws

  /** is_included_block, guarded by is_known_block. */
  function Recognises(n: Node, id: BlockId): Answer {
    if id == ZERO_ID then Yes
    else if id !in n.known then No
    else match IdAt(n, id.num)
      case None => Throws
      case Some(other) => if other == id then Yes else No
  }

  datatype Search = At(i: nat) | Nowhere | Fails

  /** Where the scan of the synopsis from its end stops. */
  function LastRecognised(n: Node, synopsis: seq<BlockId>): (r: Search)
    ensures r.Nowhere? ==> forall j :: 0 <= j < |synopsis| ==> Recognises(n, synopsis[j]) == No
    ensures r.At? ==>
      && r.i < |synopsis| && Recognises(n, synopsis[r.i]) == Yes
      && forall j :: r.i < j < |synopsis| ==> Recognises(n, synopsis[j]) == No
    ensures r.Fails? <==> exists i :: ScanFailsAt(n, synopsis, i)
  {
    var k := |synopsis| - 1;
    if k < 0 then Nowhere
    else match Recognises(n, synopsis[k])
      case Yes => At(k)
      case Throws =>
        assert ScanFailsAt(n, synopsis, k);
        Fails
      case No =>
        var r := LastRecognised(n, synopsis[..k]);
        assert forall j :: 0 <= j < k ==> synopsis[..k][j] == synopsis[j];
        assert forall i :: ScanFailsAt(n, synopsis[..k], i) ==> ScanFailsAt(n, synopsis, i);
        r
  }

  /** The scan throws at an entry that is known but has no id in the log; all later ones are not recognised. */
  ghost predicate ScanFailsAt(n: Node, synopsis: seq<BlockId>, i: nat) {
    && i < |synopsis| && Recognises(n, synopsis[i]) == Throws
    && forall j :: i < j < |synopsis| ==> Recognises(n, synopsis[j]) == No
  }

  /** A synopsis that ends in a block of a fork, known to the responder but above its own chain, makes it throw, however
      much of the rest it has. */
  lemma KnownAboveThrows(n: Node, synopsis: seq<BlockId>, id: BlockId, limit: nat)
    requires ValidNode(n) && n.chain != [] && id in n.known && id.num > |n.chain| && id.num !in n.above
    ensures IsReply(n, synopsis + [id], limit, Thrown)
  {
    assert ScanFailsAt(n, synopsis + [id], |synopsis|);
  }

  /** Such a node: one block of its own, and the second block of a fork. */
  lemma ForkBlockCanBeKnown()
    ensures var n := Node([BlockId(1, 0)], map[], {BlockId(1, 0), BlockId(2, 7)});
      ValidNode(n) && IsReply(n, [BlockId(1, 0)] + [BlockId(2, 7)], 2000, Thrown)
      && IsReply(n, [BlockId(1, 0)], 2000, Reply([BlockId(1, 0)], 0))
  {
    var n := Node([BlockId(1, 0)], map[], {BlockId(1, 0), BlockId(2, 7)});
    KnownAboveThrows(n, [BlockId(1, 0)], BlockId(2, 7), 2000);
  }

  /** What get_block_ids returns. */
  ghost predicate IsReply(n: Node, synopsis: seq<BlockId>, limit: nat, r: Reply) {
    if |n.chain| == 0 then r == Reply([], 0)
    else if synopsis == [] then r == ReplyFrom(n.chain, 0, limit)
    else match LastRecognised(n, synopsis)
      case Nowhere => r == Unreachable
      case Fails => r == Thrown
      case At(i) => r == ReplyFrom(n.chain, synopsis[i].num, limit)
  }

  /** get_block_ids: start from the last synopsis entry the node recognises and send up to `limit` ids. */
  method GetBlockIds(n: Node, synopsis: seq<BlockId>, limit: nat) returns (r: Reply)
    requires ValidNode(n)
    ensures IsReply(n, synopsis, limit, r)
  {
    if |n.chain| == 0 { return Reply([], 0); }
    var lastKnown := ZERO_ID;
    if !(synopsis == [] || (|synopsis| == 1 && synopsis[0] == ZERO_ID)) {
      var found := FindRecognised(n, synopsis);
      if found.Fails? { return Thrown; }
      if found.Nowhere? { return Unreachable; }
      lastKnown := synopsis[found.i];
    }
    r := CollectIds(n.chain, lastKnown.num, limit);
  }

  method FindRecognised(n: Node, synopsis: seq<BlockId>) returns (r: Search)
    ensures r == LastRecognised(n, synopsis)
  {
    var i := |synopsis|;
    while i > 0
      invariant 0 <= i <= |synopsis|
      invariant LastRecognised(n, synopsis) == LastRecognised(n, synopsis[..i])
    {
      i := i - 1;
      assert synopsis[..i + 1][..i] == synopsis[..i];
      var id := synopsis[i];
      if id == ZERO_ID { return At(i); }
      if id in n.known {
        var included := IdAt(n, id.num);
        if included == None { return Fails; }
        if included.value == id { return At(i); }
      }
    }
    r := Nowhere;
  }

  method CollectIds(chain: Chain, from: nat, limit: nat) returns (r: Reply)
    requires NumberedChain(chain) && |chain| > 0
    ensures r == ReplyFrom(chain, from, limit)
  {
    if from > |chain| { return Reply([], 0); }
    var ids: seq<BlockId> := [];
    var num := from;
    ghost var first := if num == 0 then 0 else num - 1;
    while num <= |chain| && |ids| < limit
      invariant num <= |chain| + 1 && |ids| <= limit && first + |ids| <= |chain|
      invariant num == (if num == 0 then 0 else first + 1 + |ids|)
      invariant num == 0 ==> ids == []
      invariant ids == chain[first..first + |ids|]
      decreases |chain| + 1 - num
    {
      if num > 0 {
        ids := ids + [chain[num - 1]];
      }
      num := num + 1;
    }
    var remaining := 0;
    if ids != [] && ids[|ids| - 1].num < |chain| {
      remaining := |chain| - ids[|ids| - 1].num;
    }
    r := Reply(ids, remaining);
  }

  /** The ids from number `from` on (from 1 when it is 0), and how many are left after them; none above the head. */
  ghost function ReplyFrom(chain: Chain, from: nat, limit: nat): Reply {
    if from > |chain| then Reply([], 0) else
    var first := if from == 0 then 0 else from - 1;
    var n := if |chain| - first < limit then |chain| - first else limit;
    Reply(chain[first..first + n], if n == 0 then 0 else |chain| - first - n)
  }

  /** The ids sent and the remaining count together reach exactly the responder's head, unless the limit is 0. */
  lemma ReplyReachesHead(chain: Chain, from: nat, limit: nat)
    requires NumberedChain(chain) && from <= |chain| && |chain| > 0
    ensures var r := ReplyFrom(chain, from, limit);
      var first := if from == 0 then 1 else from;
      && |r.ids| <= limit
      && (first - 1 + |r.ids| + r.remaining == |chain| <==> limit > 0)
      && (limit > 0 ==> r.ids != [] && r.ids[|r.ids| - 1].num + r.remaining == |chain|)
  {
  }

  // ---------- the two together ----------

  /** `f` is the highest block the two chains have in common. */
  ghost predicate HighestCommon(ours: Chain, theirs: Chain, f: nat) {
    && f <= |ours| && f <= |theirs|
    && forall i: nat :: i < |ours| && i < |theirs| ==> (ours[i] == theirs[i] <==> i < f)
  }

  /** The responder knows its own chain, and nothing of ours above its head. */
  ghost predicate Knows(n: Node, ours: Chain) {
    && (forall k :: 0 <= k < |n.chain| ==> n.chain[k] in n.known)
    && (forall k :: |n.chain| <= k < |ours| ==> ours[k] !in n.known)
  }

  /** When the highest common block is in the summarised range, the reply starts at the highest synopsis entry at or
      below it, which is no further below it than it is below the end; and every entry above it is foreign to the
      responder. */
  lemma SynopsisAndReplyMeet(ours: Chain, low: nat, after: nat, n: Node, f: nat, synopsis: seq<BlockId>)
      returns (i: nat)
    requires NumberedChain(ours) && ValidNode(n) && HighestCommon(ours, n.chain, f) && Knows(n, ours)
    requires 1 <= low <= f
    requires Summarises(synopsis, ours, SynopsisNums(low, |ours|, |ours| + after))
    ensures i < |synopsis| && low <= synopsis[i].num <= f && f - synopsis[i].num <= |ours| + after - f
    ensures LastRecognised(n, synopsis) == At(i)
  {
    i := SomeEntryIsNear(low, |ours|, |ours| + after, f);
    EntriesRecognised(ours, n, f, synopsis, SynopsisNums(low, |ours|, |ours| + after), i);
  }

  lemma EntriesRecognised(ours: Chain, n: Node, f: nat, synopsis: seq<BlockId>, nums: seq<nat>, i: nat)
    requires NumberedChain(ours) && ValidNode(n) && HighestCommon(ours, n.chain, f) && Knows(n, ours)
    requires Summarises(synopsis, ours, nums)
    requires i < |nums| && nums[i] <= f && forall j :: i < j < |nums| ==> f < nums[j]
    ensures synopsis[i].num == nums[i] && LastRecognised(n, synopsis) == At(i)
  {
    EntryRecognised(ours, n, f, nums[i]);
    forall j | i < j < |synopsis| ensures Recognises(n, synopsis[j]) == No {
      EntryRecognised(ours, n, f, nums[j]);
    }
    assert !ScanFailsAt(n, synopsis, i);
  }

  /** The responder recognises exactly the common blocks. */
  lemma EntryRecognised(ours: Chain, n: Node, f: nat, num: nat)
    requires NumberedChain(ours) && ValidNode(n) && HighestCommon(ours, n.chain, f) && Knows(n, ours)
    requires 1 <= num <= |ours|
    ensures Recognises(n, ours[num - 1]) == if num <= f then Yes else No
  {
  }

  /** From the request to the first id sent: a node with blocks summarises the range that it chooses, the other one
      answers, and the reply starts at a common block `k` that is no further below the highest common one than that
      is below the end of the summary; it goes on along the responder's chain, and with the remaining count it
      reaches exactly its head. */
  lemma EndToEnd(chain: Chain, undoSize: nat, reference: BlockId, forkIds: Option<seq<BlockId>>, after: nat,
      r: Synopsis,
                 n: Node, limit: nat, reply: Reply, f: nat) returns (k: nat)
    requires NumberedChain(chain) && (forkIds.Some? ==> ForkIds(chain, forkIds.value))
    requires reference == ZERO_ID ==> chain != []
    requires IsSynopsis(chain, undoSize, reference, forkIds, after, r) && r.Synopsis?
    requires ValidNode(n) && limit > 0 && IsReply(n, r.ids, limit, reply)
    requires var range := RangeOf(chain, undoSize, reference, forkIds);
      var ours := Presented(chain, range.nonForkHigh, range.fork);
      HighestCommon(ours, n.chain, f) && Knows(n, ours) && 1 <= f && range.low <= f
    ensures var range := RangeOf(chain, undoSize, reference, forkIds);
      Meets(Presented(chain, range.nonForkHigh, range.fork), range.low, after, n, limit, reply, f, k)
  {
    var range := RangeOf(chain, undoSize, reference, forkIds);
    RangeIsNumbered(chain, undoSize, reference, forkIds);
    RangeIsSummarised(chain, undoSize, reference, forkIds, after, r);
    k := SummaryIsAnswered(chain, range, after, r, n, limit, reply, f);
  }

  /** The reply starts at block `k`, which both chains have. */
  ghost predicate Meets(ours: Chain, low: nat, after: nat, n: Node, limit: nat, reply: Reply, f: nat, k: nat) {
    && low <= k <= f && f - k <= |ours| + after - f && 1 <= k <= |n.chain| && k <= |ours|
    && reply == ReplyFrom(n.chain, k, limit)
    && reply.ids != [] && reply.ids[0] == ours[k - 1] == n.chain[k - 1]
    && reply.ids[|reply.ids| - 1].num + reply.remaining == |n.chain|
  }

  lemma SummaryIsAnswered(chain: Chain, range: Range, after: nat, r: Synopsis, n: Node, limit: nat, reply: Reply,
      f: nat)
    returns (k: nat)
    requires IsSummary(chain, range, after, r) && r.Synopsis?
    requires NumberedChain(Presented(chain, range.nonForkHigh, range.fork))
    requires ValidNode(n) && limit > 0 && IsReply(n, r.ids, limit, reply)
    requires var ours := Presented(chain, range.nonForkHigh, range.fork);
      HighestCommon(ours, n.chain, f) && Knows(n, ours) && 1 <= f && range.low <= f
    ensures Meets(Presented(chain, range.nonForkHigh, range.fork), range.low, after, n, limit, reply, f, k)
  {
    var ours := Presented(chain, range.nonForkHigh, range.fork);
    var low := if range.low == 0 then 1 else range.low;
    assert |ours| == range.nonForkHigh + |range.fork|;
    k := IdsAreAnswered(ours, low, after, r.ids, n, limit, reply, f);
  }

  lemma IdsAreAnswered(ours: Chain, low: nat, after: nat, ids: seq<BlockId>, n: Node, limit: nat, reply: Reply, f: nat)
    returns (k: nat)
    requires NumberedChain(ours) && ValidNode(n) && limit > 0 && IsReply(n, ids, limit, reply)
    requires HighestCommon(ours, n.chain, f) && Knows(n, ours) && 1 <= low <= f
    requires Summarises(ids, ours, SynopsisNums(low, |ours|, |ours| + after))
    ensures Meets(ours, low, after, n, limit, reply, f, k)
  {
    var i := SynopsisAndReplyMeet(ours, low, after, n, f, ids);
    k := ids[i].num;
    ReplyStartsAt(ours, n.chain, f, k, limit);
  }

  lemma ReplyStartsAt(ours: Chain, theirs: Chain, f: nat, k: nat, limit: nat)
    requires NumberedChain(ours) && NumberedChain(theirs) && HighestCommon(ours, theirs, f) && 1 <= k <= f && limit > 0
    ensures var reply := ReplyFrom(theirs, k, limit);
      && reply.ids != [] && reply.ids[0] == ours[k - 1] == theirs[k - 1]
      && reply.ids[|reply.ids| - 1].num + reply.remaining == |theirs|
  {
    ReplyReachesHead(theirs, k, limit);
    var i: nat := k - 1;
    assert ours[i] == theirs[i];
  }

  lemma RangeIsSummarised(
      chain: Chain, undoSize: nat, reference: BlockId, forkIds: Option<seq<BlockId>>, after: nat, r: Synopsis)
    requires forkIds.Some? ==> forkIds.value != []
    requires reference == ZERO_ID ==> chain != []
    requires IsSynopsis(chain, undoSize, reference, forkIds, after, r) && r.Synopsis?
    ensures IsSummary(chain, RangeOf(chain, undoSize, reference, forkIds), after, r)
    ensures reference != ZERO_ID && !Included(chain, reference) ==> forkIds.Some?
  {
  }

  /** The chosen range, when there is one. */
  ghost function RangeOf(chain: Chain, undoSize: nat, reference: BlockId, forkIds: Option<seq<BlockId>>): Range
    requires forkIds.Some? ==> forkIds.value != []
  {
    var r := ChosenRange(chain, undoSize, reference, if forkIds.Some? then forkIds.value else [ZERO_ID]);
    if r.Some? && r.value.nonForkHigh <= |chain| then r.value else Range(0, 0, [])
  }

  lemma RangeIsNumbered(chain: Chain, undoSize: nat, reference: BlockId, forkIds: Option<seq<BlockId>>)
    requires NumberedChain(chain) && (forkIds.Some? ==> ForkIds(chain, forkIds.value))
    requires reference != ZERO_ID && !Included(chain, reference) ==> forkIds.Some?
    ensures var range := RangeOf(chain, undoSize, reference, forkIds);
      range.nonForkHigh <= |chain| && NumberedChain(Presented(chain, range.nonForkHigh, range.fork))
  {
    if forkIds.Some? { PresentedIsNumbered(chain, forkIds.value); }
  }
}
