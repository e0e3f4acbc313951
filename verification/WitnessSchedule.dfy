/**
 * The witness schedule (libraries/chain/db_witness_schedule.cpp): slots and their times, the shuffle,
 * and who produces in which slot.
 */
module SlotTimes {
  import opened Arithmetic

  /** What the slot arithmetic reads from the chain state; times are in seconds. */
  datatype Clock = Clock(headNum: nat, time: nat, interval: nat, maintenance: bool, skipSlots: nat)

  function Skipped(c: Clock): nat {
    if c.maintenance then c.skipSlots else 0
  }

  /** get_slot_time: before the first block slots count from genesis, later from the head's own slot. */
  function SlotTime(c: Clock, slot: nat): nat
    requires c.interval > 0
  {
    if slot == 0 then 0
    else if c.headNum == 0 then c.time + slot * c.interval
    else c.time / c.interval * c.interval + (slot + Skipped(c)) * c.interval
  }

  /** get_slot_at_time; for counting missed blocks, everything from the first slot on is slot 1 before the first
      block. */
  function SlotAtTime(c: Clock, when_: nat, forMissedBlocks: bool): nat
    requires c.interval > 0
  {
    if when_ < SlotTime(c, 1) then 0
    else if forMissedBlocks && c.headNum == 0 then 1
    else (when_ - SlotTime(c, 1)) / c.interval + 1
  }

  /** Slots are one interval apart. */
  lemma SlotsAreEven(c: Clock, slot: nat)
    requires c.interval > 0 && slot > 0
    ensures SlotTime(c, slot) == SlotTime(c, 1) + (slot - 1) * c.interval
  {
    if c.headNum == 0 {
      Distribute(1, slot - 1, c.interval);
    } else {
      Distribute(1 + Skipped(c), slot - 1, c.interval);
    }
  }

  /** The first slot is one interval after genesis, or, after a block, the next multiple of the interval above the
      head's time once the slots that maintenance skips have passed. */
  lemma FirstSlotIsNext(c: Clock)
    requires c.interval > 0
    ensures SlotTime(c, 0) == 0
    ensures var first, skipped := SlotTime(c, 1), (if c.maintenance then c.skipSlots else 0) * c.interval;
      if c.headNum == 0 then first == c.time + c.interval
      else first % c.interval == 0 && c.time + skipped < first <= c.time + skipped + c.interval
  {
    if c.headNum > 0 {
      var q := c.time / c.interval;
      Distribute(q, 1 + Skipped(c), c.interval);
      Distribute(1, Skipped(c), c.interval);
      DivUnique((q + (1 + Skipped(c))) * c.interval, c.interval, q + (1 + Skipped(c)), 0);
      assert c.time == q * c.interval + c.time % c.interval;
    }
  }

  /** The slot at a slot's time is that slot, for every slot from 1 on; counting missed blocks, once there is a
      block. */
  lemma SlotAtInvertsSlotTime(c: Clock, slot: nat, forMissedBlocks: bool)
    requires c.interval > 0 && slot > 0
    ensures SlotAtTime(c, SlotTime(c, slot), forMissedBlocks) == slot <==>
      !forMissedBlocks || c.headNum > 0 || slot == 1
  {
    SlotsAreEven(c, slot);
    DivUnique((slot - 1) * c.interval, c.interval, slot - 1, 0);
  }

  /** Every time from the first slot on lies between its slot's time and the next one's. */
  lemma SlotContainsTime(c: Clock, when_: nat)
    requires c.interval > 0 && when_ >= SlotTime(c, 1)
    ensures var slot := SlotAtTime(c, when_, false);
      slot > 0 && SlotTime(c, slot) <= when_ < SlotTime(c, slot + 1)
  {
    var first := SlotTime(c, 1);
    var q := (when_ - first) / c.interval;
    assert when_ - first == q * c.interval + (when_ - first) % c.interval;
    SlotsAreEven(c, q + 1);
    SlotsAreEven(c, q + 2);
    Distribute(q, 1, c.interval);
  }
}

module Scrambling {
  const MULTIPLIER: bv64 := 2685821657736338717

  /** The 64-bit generator; arithmetic wraps. */
  function Scrambled(nowHi: bv64, i: bv64): bv64 {
    var k0 := nowHi + i * MULTIPLIER;
    var k1 := k0 ^ (k0 >> 12);
    var k2 := k1 ^ (k1 << 25);
    var k3 := k2 ^ (k2 >> 27);
    k3 * MULTIPLIER
  }

  function Word(x: nat): bv64
    requires x < 0x1_0000_0000
  {
    x as bv64
  }

  /** The random number for position `i`, from the low 32 bits of the time. */
  function Random(now: nat, i: nat): nat
    requires i < 0x1_0000_0000
  {
    Scrambled(Word(now % 0x1_0000_0000) << 32, Word(i)) as nat
  }

  /** The number for position 2, one second after the epoch. */
  lemma GeneratorValue()
    ensures Scrambled(0x1_0000_0000, 2) == 0x7411_3B6A_E9B2_2F48
  {
  }

  function Within(k: nat, n: nat): (r: nat)
    requires n > 0
    ensures r < n
  {
    k % n
  }

  /** Where position `i` is swapped to: somewhere from `i` to the end. */
  function Partner(now: nat, i: nat, n: nat): (j: nat)
    requires i < n < 0x1_0000_0000
    ensures i <= j < n
  {
    i + Within(Random(now, i), n - i)
  }
}

module WitnessSchedules {
  import opened Arithmetic
  import opened Scrambling

  type WitnessId = nat

  function Swapped(s: seq<WitnessId>, i: nat, j: nat): (r: seq<WitnessId>)
    requires i < |s| && j < |s|
    ensures |r| == |s|
  {
    s[i := s[j]][j := s[i]]
  }

  /** Swapping every position from `i` on with one at or after it. */
  function ShuffledFrom(s: seq<WitnessId>, now: nat, i: nat): (r: seq<WitnessId>)
    requires i <= |s| < 0x1_0000_0000
    ensures |r| == |s|
    decreases |s| - i
  {
    if i == |s| then s else ShuffledFrom(Swapped(s, i, Partner(now, i, |s|)), now, i + 1)
  }

  /** Whose turn a slot is. */
  function TurnOf(shuffled: seq<WitnessId>, currentSlot: nat, slot: nat): WitnessId
    requires |shuffled| > 0
  {
    shuffled[(currentSlot + slot) % |shuffled|]
  }

  class Schedule {
    var shuffled: array<WitnessId>

    constructor (initial: array<WitnessId>)
      ensures shuffled == initial
    {
      shuffled := initial;
    }

    /** A new shuffle of the active witnesses when the head number is a multiple of their count. */
    method UpdateWitnessSchedule(headNum: nat, now: nat, active: seq<WitnessId>)
      requires 0 < |active| < 0x1_0000_0000
      modifies this
      ensures headNum % |active| != 0 ==> shuffled == old(shuffled)
      ensures headNum % |active| == 0 ==> fresh(shuffled) && shuffled[..] == ShuffledFrom(active, now, 0)
    {
      if headNum % |active| != 0 { return; }
      var a := new WitnessId[|active|](i requires 0 <= i < |active| => active[i]);
      assert a[..] == active;
      for i := 0 to a.Length
        invariant fresh(a) && a.Length == |active|
        invariant ShuffledFrom(a[..], now, i) == ShuffledFrom(active, now, 0)
      {
        var j := Partner(now, i, a.Length);
        ghost var before := a[..];
        a[i], a[j] := a[j], a[i];
        assert a[..] == Swapped(before, i, j);
      }
      shuffled := a;
    }

    function GetScheduledWitness(slot: nat, currentSlot: nat): (w: WitnessId)
      reads this, shuffled
      requires shuffled.Length > 0
      ensures w == TurnOf(shuffled[..], currentSlot, slot)
    {
      shuffled[(currentSlot + slot) % shuffled.Length]
    }
  }

  // ---------- the shuffle is a permutation ----------

  lemma SwapPermutes(s: seq<WitnessId>, i: nat, j: nat)
    requires i < |s| && j < |s|
    ensures multiset(Swapped(s, i, j)) == multiset(s)
  {
  }

  lemma {:induction false} ShufflePermutes(s: seq<WitnessId>, now: nat, i: nat)
    requires i <= |s| < 0x1_0000_0000
    ensures multiset(ShuffledFrom(s, now, i)) == multiset(s)
    decreases |s| - i
  {
    if i < |s| {
      SwapPermutes(s, i, Partner(now, i, |s|));
      ShufflePermutes(Swapped(s, i, Partner(now, i, |s|)), now, i + 1);
    }
  }

  /** One swap for each position, with one at or after it. */
  predicate Draws(draws: seq<nat>, n: nat) {
    |draws| == n && forall i :: 0 <= i < n ==> i <= draws[i] < n
  }

  function ShuffledBy(s: seq<WitnessId>, draws: seq<nat>, i: nat): (r: seq<WitnessId>)
    requires i <= |s| && Draws(draws, |s|)
    ensures |r| == |s|
    decreases |s| - i
  {
    if i == |s| then s else ShuffledBy(Swapped(s, i, draws[i]), draws, i + 1)
  }

  /** The draws of a time: the random numbers, each modulo the number of positions that are left. */
  ghost predicate AreDrawnAt(draws: seq<nat>, n: nat, now: nat)
    requires n < 0x1_0000_0000
  {
    Draws(draws, n) && forall i :: 0 <= i < n ==> draws[i] - i == Random(now, i) % (n - i)
  }

  lemma {:induction false} ShuffleIsDrawn(s: seq<WitnessId>, now: nat, draws: seq<nat>, i: nat)
    requires i <= |s| < 0x1_0000_0000 && AreDrawnAt(draws, |s|, now)
    ensures ShuffledFrom(s, now, i) == ShuffledBy(s, draws, i)
    decreases |s| - i
  {
    if i < |s| {
      assert draws[i] == Partner(now, i, |s|);
      ShuffleIsDrawn(Swapped(s, i, draws[i]), now, draws, i + 1);
    }
  }

  lemma {:induction false} PrefixStays(s: seq<WitnessId>, draws: seq<nat>, i: nat, k: nat)
    requires k < i <= |s| && Draws(draws, |s|)
    ensures ShuffledBy(s, draws, i)[k] == s[k]
    decreases |s| - i
  {
    if i < |s| { PrefixStays(Swapped(s, i, draws[i]), draws, i + 1, k); }
  }

  lemma SwapStaysDistinct(s: seq<WitnessId>, i: nat, j: nat)
    requires i < |s| && j < |s| && Distinct(s)
    ensures Distinct(Swapped(s, i, j))
  {
  }

  /** Different draws shuffle differently. */
  lemma {:induction false} DrawsAreUnique(s: seq<WitnessId>, d: seq<nat>, e: seq<nat>, i: nat)
    requires i <= |s| && Draws(d, |s|) && Draws(e, |s|) && Distinct(s)
    requires ShuffledBy(s, d, i) == ShuffledBy(s, e, i)
    ensures forall k :: i <= k < |s| ==> d[k] == e[k]
    decreases |s| - i
  {
    if i < |s| {
      PrefixStays(Swapped(s, i, d[i]), d, i + 1, i);
      PrefixStays(Swapped(s, i, e[i]), e, i + 1, i);
      assert s[d[i]] == s[e[i]];
      SwapStaysDistinct(s, i, d[i]);
      DrawsAreUnique(Swapped(s, i, d[i]), d, e, i + 1);
    }
  }

  /** And every order of the witnesses can be drawn. */
  lemma {:induction false} OrderIsDrawn(s: seq<WitnessId>, t: seq<WitnessId>, i: nat) returns (draws: seq<nat>)
    requires i <= |s| == |t| && multiset(s) == multiset(t) && s[..i] == t[..i]
    ensures Draws(draws, |s|) && ShuffledBy(s, draws, i) == t
    decreases |s| - i
  {
    if i == |s| {
      draws := seq(|s|, k requires 0 <= k < |s| => k);
      assert s == s[..i] && t == t[..i];
    } else {
      var j := PlaceOf(s, t, i);
      var s' := Swapped(s, i, j);
      SwapPermutes(s, i, j);
      assert s'[..i + 1] == t[..i + 1] by {
        forall k | 0 <= k < i ensures s'[k] == t[k] { assert s[..i][k] == t[..i][k]; }
      }
      var rest := OrderIsDrawn(s', t, i + 1);
      draws := rest[i := j];
      SameDraws(s', rest, draws, i + 1);
    }
  }

  lemma PlaceOf(s: seq<WitnessId>, t: seq<WitnessId>, i: nat) returns (j: nat)
    requires i < |s| == |t| && multiset(s) == multiset(t) && s[..i] == t[..i]
    ensures i <= j < |s| && s[j] == t[i]
  {
    assert s == s[..i] + s[i..] && t == t[..i] + t[i..];
    var w := t[i];
    assert multiset(s)[w] == multiset(s[..i])[w] + multiset(s[i..])[w];
    assert multiset(t)[w] == multiset(t[..i])[w] + multiset(t[i..])[w];
    assert t[i..][0] == w && w in multiset(t[i..]);
    assert w in multiset(s[i..]) && w in s[i..];
    var m: nat :| m < |s[i..]| && s[i..][m] == t[i];
    j := i + m;
  }

  lemma {:induction false} SameDraws(s: seq<WitnessId>, d: seq<nat>, e: seq<nat>, i: nat)
    requires i <= |s| && Draws(d, |s|) && Draws(e, |s|) && forall k :: i <= k < |s| ==> d[k] == e[k]
    ensures ShuffledBy(s, d, i) == ShuffledBy(s, e, i)
    decreases |s| - i
  {
    if i < |s| { SameDraws(Swapped(s, i, d[i]), d, e, i + 1); }
  }

  /** Every order of the active witnesses comes from exactly one choice of draws, so the shuffle favours none. */
  lemma ShuffleIsFair(active: seq<WitnessId>, order: seq<WitnessId>) returns (draws: seq<nat>)
    requires Distinct(active) && multiset(order) == multiset(active)
    ensures Draws(draws, |active|) && ShuffledBy(active, draws, 0) == order
    ensures forall other :: Draws(other, |active|) && ShuffledBy(active, other, 0) == order ==> other == draws
  {
    assert |multiset(order)| == |order| && |multiset(active)| == |active|;
    draws := OrderIsDrawn(active, order, 0);
    forall other | Draws(other, |active|) && ShuffledBy(active, other, 0) == order ensures other == draws {
      DrawsAreUnique(active, other, draws, 0);
    }
  }

  predicate Distinct(s: seq<WitnessId>) {
    forall i, j :: 0 <= i < j < |s| ==> s[i] != s[j]
  }

  lemma {:induction false} DistinctHaveCountOne(s: seq<WitnessId>)
    requires Distinct(s)
    ensures forall w :: multiset(s)[w] <= 1
  {
    if s != [] {
      var n := |s| - 1;
      DistinctHaveCountOne(s[..n]);
      assert s == s[..n] + [s[n]];
      assert s[n] !in s[..n];
    }
  }

  lemma CountOneMeansDistinct(s: seq<WitnessId>)
    requires forall w :: multiset(s)[w] <= 1
    ensures Distinct(s)
  {
    forall i, j | 0 <= i < j < |s| ensures s[i] != s[j] {
      assert s == s[..j] + [s[j]] + s[j + 1..];
      assert multiset(s)[s[j]] == multiset(s[..j])[s[j]] + 1 + multiset(s[j + 1..])[s[j]];
      assert s[..j][i] in multiset(s[..j]);
    }
  }

  /** The witnesses scheduled in `n` slots in a row, from `slot` on. */
  function InSlots(shuffled: seq<WitnessId>, currentSlot: nat, slot: nat): (r: seq<WitnessId>)
    requires |shuffled| > 0
    ensures |r| == |shuffled|
  {
    seq<WitnessId>(|shuffled|, k requires 0 <= k < |shuffled| => TurnOf(shuffled, currentSlot, slot + k))
  }

  /** Slots in a row go round the schedule once: they are the schedule rotated. */
  lemma SlotsRotate(shuffled: seq<WitnessId>, currentSlot: nat, slot: nat)
    requires |shuffled| > 0
    ensures var r := (currentSlot + slot) % |shuffled|;
      InSlots(shuffled, currentSlot, slot) == shuffled[r..] + shuffled[..r]
  {
    var n := |shuffled|;
    var r := (currentSlot + slot) % n;
    forall k: nat | k < n ensures InSlots(shuffled, currentSlot, slot)[k] == (shuffled[r..] + shuffled[..r])[k] {
      ModStep(currentSlot + slot, k, n);
      assert InSlots(shuffled, currentSlot, slot)[k] == TurnOf(shuffled, currentSlot, slot + k);
      assert TurnOf(shuffled, currentSlot, slot + k) == shuffled[if r + k < n then r + k else r + k - n] by {
        assert (currentSlot + (slot + k)) % n == if r + k < n then r + k else r + k - n by {
          assert currentSlot + (slot + k) == (currentSlot + slot) + k;
        }
      }
    }
  }

  /** As slots pass, whose turn a slot is does not change. */
  lemma TurnsStay(shuffled: seq<WitnessId>, currentSlot: nat, passed: nat, slot: nat)
    requires |shuffled| > 0 && passed <= slot
    ensures TurnOf(shuffled, currentSlot + passed, slot - passed) == TurnOf(shuffled, currentSlot, slot)
    ensures currentSlot + slot < |shuffled| ==> TurnOf(shuffled, currentSlot, slot) == shuffled[currentSlot + slot]
  {
    assert currentSlot + passed + (slot - passed) == currentSlot + slot;
  }

  /** Under one shuffled schedule, any n slots in a row assign each of the n active witnesses exactly once. */
  lemma EveryWitnessOnce(active: seq<WitnessId>, now: nat, currentSlot: nat, slot: nat)
    requires 0 < |active| < 0x1_0000_0000 && Distinct(active)
    ensures var slots := InSlots(ShuffledFrom(active, now, 0), currentSlot, slot);
      && multiset(slots) == multiset(active) && Distinct(slots)
      && forall w :: w in active <==> w in slots
  {
    var s := ShuffledFrom(active, now, 0);
    ShufflePermutes(active, now, 0);
    SlotsRotate(s, currentSlot, slot);
    var r := (currentSlot + slot) % |s|;
    assert s == s[..r] + s[r..];
    assert multiset(s[r..] + s[..r]) == multiset(s[..r]) + multiset(s[r..]) == multiset(s);
    var slots := InSlots(s, currentSlot, slot);
    DistinctHaveCountOne(active);
    CountOneMeansDistinct(slots);
    forall w ensures w in active <==> w in slots {
      assert w in active <==> w in multiset(active);
      assert w in slots <==> w in multiset(slots);
    }
  }

  /** The same of the schedule object: after a reshuffle, get_scheduled_witness calls every active witness in any n
      slots in a row, and none twice. */
  lemma EveryWitnessIsCalledOnce(schedule: Schedule, active: seq<WitnessId>, now: nat, currentSlot: nat, slot: nat)
    requires 0 < |active| < 0x1_0000_0000 && Distinct(active)
    requires schedule.shuffled[..] == ShuffledFrom(active, now, 0)
    ensures forall w :: w in active <==> exists k: nat :: IsCalledIn(schedule, |active|, currentSlot, slot, k, w)
    ensures forall w, j: nat, k: nat ::
      IsCalledIn(schedule, |active|, currentSlot, slot, j, w) ==>
        IsCalledIn(schedule, |active|, currentSlot, slot, k, w) ==> j == k
  {
    EveryWitnessOnce(active, now, currentSlot, slot);
    var slots := InSlots(schedule.shuffled[..], currentSlot, slot);
    forall k: nat, w
      ensures IsCalledIn(schedule, |active|, currentSlot, slot, k, w) <==> k < |slots| && slots[k] == w
    {
    }
    forall w ensures w in active <==> exists k: nat :: IsCalledIn(schedule, |active|, currentSlot, slot, k, w) {
      if w in slots {
        var k: nat :| k < |slots| && slots[k] == w;
        assert IsCalledIn(schedule, |active|, currentSlot, slot, k, w);
      }
    }
  }

  ghost predicate IsCalledIn(schedule: Schedule, n: nat, currentSlot: nat, slot: nat, k: nat, w: WitnessId)
    reads schedule, schedule.shuffled
  {
    k < n && schedule.shuffled.Length > 0 && schedule.GetScheduledWitness(slot + k, currentSlot) == w
  }
}
