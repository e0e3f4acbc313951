/**
 * Vesting balances (libraries/chain/vesting_balance_object.cpp): coin-days-destroyed vesting, where
 * held coins earn coin-seconds that withdrawals spend, and linear vesting with a cliff.
 */
module Vesting {
  import opened Common
  import opened Arithmetic


  // ---------- coin-days-destroyed ----------

  /** A balance under the cdd policy. */
  datatype Cdd = Cdd(balance: nat, vestingSeconds: nat, earned: nat, startClaim: nat, lastUpdate: nat)

  function Unit(v: Cdd): (u: nat)
    ensures u > 0
  {
    Max(v.vestingSeconds, 1)
  }

  /** compute_coin_seconds_earned: what has accrued, capped at the whole balance having vested. */
  function Earned(v: Cdd, now: nat): nat
    requires now >= v.lastUpdate
  {
    Min(v.earned + v.balance * (now - v.lastUpdate), v.balance * Unit(v))
  }

  function AllowedCdd(v: Cdd, now: nat): nat
    requires now >= v.lastUpdate
  {
    if now <= v.startClaim then 0 else Earned(v, now) / Unit(v)
  }

  function Updated(v: Cdd, now: nat): Cdd
    requires now >= v.lastUpdate
  {
    v.(earned := Earned(v, now), lastUpdate := now)
  }

  function Deposited(v: Cdd, now: nat, a: nat): Cdd
    requires now >= v.lastUpdate
  {
    Updated(v, now).(balance := v.balance + a)
  }

  function DepositedVested(v: Cdd, now: nat, a: nat): Cdd
    requires now >= v.lastUpdate
  {
    v.(balance := v.balance + a, earned := Earned(v, now) + a * Unit(v), lastUpdate := now)
  }

  function Withdrawn(v: Cdd, now: nat, a: nat): Cdd
    requires now >= v.lastUpdate && a * Unit(v) <= Earned(v, now) && a <= v.balance
  {
    v.(balance := v.balance - a, earned := Earned(v, now) - a * Unit(v), lastUpdate := now)
  }

  predicate DepositAllowed(balance: nat, a: nat) {
    balance + a <= MAX_SHARE_SUPPLY
  }

  /** Coin-seconds never exceed what the balance would earn by vesting completely. */
  ghost predicate WithinCap(v: Cdd) {
    v.earned <= v.balance * Unit(v)
  }

  /** The asserts of on_withdraw and get_allowed_withdraw: an allowed amount is covered by the coin-seconds
      and by the balance. */
  lemma AllowedIsCovered(v: Cdd, now: nat, a: nat)
    requires now >= v.lastUpdate && a <= AllowedCdd(v, now)
    ensures a * Unit(v) <= Earned(v, now) && a <= v.balance
  {
    var u, e := Unit(v), Earned(v, now);
    if now > v.startClaim {
      MulMono(a, e / u, u);
      assert e == (e / u) * u + e % u;
      Distribute(v.balance, 1, u);
      if a > v.balance { MulMono(v.balance + 1, a, u); }
    } else {
      assert a * u == 0;
    }
  }

  /** At the instant of a withdrawal, the allowed amount falls by exactly what is withdrawn. */
  lemma WithdrawLowersAllowedExactly(v: Cdd, now: nat, a: nat)
    requires now >= v.lastUpdate && a <= AllowedCdd(v, now)
    ensures a * Unit(v) <= Earned(v, now) && a <= v.balance
    ensures AllowedCdd(Withdrawn(v, now, a), now) == AllowedCdd(v, now) - a
  {
    var u, e := Unit(v), Earned(v, now);
    AllowedIsCovered(v, now, a);
    var w := Withdrawn(v, now, a);
    assert Earned(w, now) == e - a * u by {
      Distribute(v.balance - a, a, u);
      assert w.balance * 0 == 0;
    }
    Distribute(a, 0 - a, u);
    DivPlus(e, 0 - a, u);
  }

  /** A deposit changes nothing about what may be withdrawn at that instant, a vested one adds exactly itself. */
  lemma DepositsAndAllowed(v: Cdd, now: nat, a: nat)
    requires now >= v.lastUpdate && now > v.startClaim
    ensures AllowedCdd(Deposited(v, now, a), now) == AllowedCdd(v, now)
    ensures AllowedCdd(DepositedVested(v, now, a), now) == AllowedCdd(v, now) + a
  {
    var u, e := Unit(v), Earned(v, now);
    var d := Deposited(v, now, a);
    Distribute(v.balance, a, u);
    assert Earned(d, now) == e && Earned(DepositedVested(v, now, a), now) == e + a * u by {
      assert d.balance * 0 == 0;
      MulMono(0, a, u);
    }
    DivPlus(e, a, u);
  }

  lemma CapIsKept(v: Cdd, now: nat, a: nat)
    requires now >= v.lastUpdate
    ensures WithinCap(Deposited(v, now, a)) && WithinCap(DepositedVested(v, now, a))
    ensures a * Unit(v) <= Earned(v, now) && a <= v.balance ==> WithinCap(Withdrawn(v, now, a))
  {
    Distribute(v.balance, a, Unit(v));
    Distribute(v.balance - a, a, Unit(v));
    MulMono(0, a, Unit(v));
  }

  /** Nothing may be withdrawn up to the start; after it, a coin for every vesting period's worth of coin-seconds that
      was earned or has accrued since, but no more than the balance. */
  lemma AllowedIsEarned(v: Cdd, now: nat)
    requires now >= v.lastUpdate
    ensures now <= v.startClaim ==> AllowedCdd(v, now) == 0
    ensures now > v.startClaim ==>
      var n, accrued := AllowedCdd(v, now), v.earned + v.balance * (now - v.lastUpdate);
      && n <= v.balance && n * Unit(v) <= accrued
      && (n < v.balance ==> accrued < (n + 1) * Unit(v))
    ensures v.vestingSeconds >= 1 ==> Unit(v) == v.vestingSeconds
  {
    if now > v.startClaim {
      var u, e := Unit(v), Earned(v, now);
      DivIsLargest(e, u, 0);
      DivMono(e, v.balance * u, u);
      DivUnique(v.balance * u, u, v.balance, 0);
      if e / u < v.balance { MulMono(e / u + 1, v.balance, u); }
    }
  }

  /** So a balance that is left alone for the vesting period may be withdrawn as a whole. */
  lemma BalanceVests(v: Cdd, now: nat)
    requires now >= v.lastUpdate + Unit(v) && now > v.startClaim
    ensures AllowedCdd(v, now) == v.balance
  {
    AllowedIsEarned(v, now);
    var n := AllowedCdd(v, now);
    MulMono(Unit(v), now - v.lastUpdate, v.balance);
    if n < v.balance { MulMono(n + 1, v.balance, Unit(v)); }
  }

  /** It does not matter how often the coin-seconds are brought up to date. */
  lemma UpdatingChangesNothing(v: Cdd, t: nat, now: nat)
    requires v.lastUpdate <= t <= now
    ensures AllowedCdd(Updated(v, t), now) == AllowedCdd(v, now) && Earned(Updated(v, t), now) == Earned(v, now)
  {
    EarnedTwice(v, t, now);
    assert Unit(Updated(v, t)) == Unit(v);
  }

  lemma EarnedTwice(v: Cdd, t: nat, now: nat)
    requires v.lastUpdate <= t <= now
    ensures Earned(Updated(v, t), now) == Earned(v, now)
  {
    SplitTime(v.balance, t - v.lastUpdate, now - t);
    CappedTwice(v.earned, v.balance * (t - v.lastUpdate), v.balance * (now - t), v.balance * Unit(v));
  }

  lemma CappedTwice(earned: nat, before: nat, after: nat, cap: nat)
    ensures Min(Min(earned + before, cap) + after, cap) == Min(earned + before + after, cap)
  {
  }

  lemma SplitTime(balance: nat, before: nat, after: nat)
    ensures balance * (before + after) == balance * before + balance * after
    ensures balance * before >= 0 && balance * after >= 0
  {
    QuotientIsNat(balance, before, 1);
    QuotientIsNat(balance, after, 1);
  }

  // ---------- runs ----------

  datatype Op = Deposit(now: nat, a: nat) | DepositVested(now: nat, a: nat) | Withdraw(now: nat, a: nat)

  /** The operation is allowed and does not go back in time. */
  predicate Permitted(v: Cdd, op: Op) {
    && op.now >= v.lastUpdate
    && match op
       case Deposit(_, a) => DepositAllowed(v.balance, a)
       case DepositVested(_, a) => DepositAllowed(v.balance, a)
       case Withdraw(now, a) => a <= AllowedCdd(v, now)
  }

  function Applied(v: Cdd, op: Op): Cdd
    requires Permitted(v, op)
  {
    match op
    case Deposit(now, a) => Deposited(v, now, a)
    case DepositVested(now, a) => DepositedVested(v, now, a)
    case Withdraw(now, a) => AllowedIsCovered(v, now, a); Withdrawn(v, now, a)
  }

  ghost predicate AllPermitted(v: Cdd, ops: seq<Op>)
    decreases |ops|
  {
    ops == [] || (Permitted(v, ops[0]) && AllPermitted(Applied(v, ops[0]), ops[1..]))
  }

  function RunCdd(v: Cdd, ops: seq<Op>): Cdd
    requires AllPermitted(v, ops)
    decreases |ops|
  {
    if ops == [] then v else RunCdd(Applied(v, ops[0]), ops[1..])
  }

  /** Coin-seconds given out: what the balance accrues up to the operation, uncapped, and what a vested deposit
      brings. */
  ghost function StepAccrued(v: Cdd, op: Op): nat
    requires op.now >= v.lastUpdate
  {
    v.balance * (op.now - v.lastUpdate) + if op.DepositVested? then op.a * Unit(v) else 0
  }

  ghost function Accrued(v: Cdd, ops: seq<Op>): nat
    requires AllPermitted(v, ops)
    decreases |ops|
  {
    if ops == [] then 0 else StepAccrued(v, ops[0]) + Accrued(Applied(v, ops[0]), ops[1..])
  }

  function Moved(op: Op, withdrawals: bool): nat {
    if op.Withdraw? == withdrawals then op.a else 0
  }

  function TotalOf(ops: seq<Op>, withdrawals: bool): nat
    decreases |ops|
  {
    if ops == [] then 0 else Moved(ops[0], withdrawals) + TotalOf(ops[1..], withdrawals)
  }

  lemma StepIsCovered(v: Cdd, op: Op)
    requires Permitted(v, op) && WithinCap(v)
    ensures WithinCap(Applied(v, op)) && Unit(Applied(v, op)) == Unit(v)
    ensures Applied(v, op).balance + Moved(op, true) == v.balance + Moved(op, false)
    ensures Moved(op, true) * Unit(v) + Applied(v, op).earned <= v.earned + StepAccrued(v, op)
  {
    if op.Withdraw? { AllowedIsCovered(v, op.now, op.a); }
    CapIsKept(v, op.now, op.a);
  }

  /** In every run: the cap holds at the end, the balance is what was deposited less what was withdrawn, and all
      withdrawals together are paid for by accrued coin-seconds. */
  lemma {:induction false} RunsAreCovered(v: Cdd, ops: seq<Op>)
    requires AllPermitted(v, ops) && WithinCap(v)
    ensures WithinCap(RunCdd(v, ops)) && Unit(RunCdd(v, ops)) == Unit(v)
    ensures RunCdd(v, ops).balance + TotalOf(ops, true) == v.balance + TotalOf(ops, false)
    ensures TotalOf(ops, true) * Unit(v) + RunCdd(v, ops).earned <= v.earned + Accrued(v, ops)
    decreases |ops|
  {
    if ops != [] {
      StepIsCovered(v, ops[0]);
      RunsAreCovered(Applied(v, ops[0]), ops[1..]);
      Distribute(Moved(ops[0], true), TotalOf(ops[1..], true), Unit(v));
    }
  }

  class CddBalance {
    var balance: nat
    const vestingSeconds: nat
    var earned: nat
    const startClaim: nat
    var lastUpdate: nat

    ghost function AsCdd(): Cdd reads this {
      Cdd(balance, vestingSeconds, earned, startClaim, lastUpdate)
    }

    ghost predicate Valid() reads this {
      WithinCap(AsCdd())
    }

    /** deposit_lazy_vesting: a fresh balance starts unvested, or already vested. */
    constructor (amount: nat, vestingSeconds: nat, now: nat, startClaim: nat, requireVesting: bool)
      ensures Valid()
      ensures AsCdd() ==
        Cdd(amount, vestingSeconds, if requireVesting then 0 else amount * vestingSeconds, startClaim, now)
    {
      balance, this.vestingSeconds, lastUpdate, this.startClaim := amount, vestingSeconds, now, startClaim;
      earned := if requireVesting then 0 else amount * vestingSeconds;
      new;
      assert amount * vestingSeconds <= amount * Unit(AsCdd()) by {
        if vestingSeconds == 0 { assert amount * vestingSeconds == 0; }
      }
    }

    method UpdateCoinSecondsEarned(now: nat)
      requires now >= lastUpdate
      modifies this`earned, this`lastUpdate
      ensures AsCdd() == Updated(old(AsCdd()), now)
    {
      var delta := balance * (now - lastUpdate);
      var cap := balance * (if vestingSeconds < 1 then 1 else vestingSeconds);
      earned := Min(earned + delta, cap);
      lastUpdate := now;
    }

    method Deposit(now: nat, a: nat)
      requires Valid() && now >= lastUpdate
      modifies this
      ensures Valid() && AsCdd() == Deposited(old(AsCdd()), now, a)
    {
      CapIsKept(AsCdd(), now, a);
      UpdateCoinSecondsEarned(now);
      balance := balance + a;
    }

    method DepositVested(now: nat, a: nat)
      requires Valid() && now >= lastUpdate
      modifies this
      ensures Valid() && AsCdd() == DepositedVested(old(AsCdd()), now, a)
    {
      CapIsKept(AsCdd(), now, a);
      UpdateCoinSecondsEarned(now);
      earned := earned + a * (if vestingSeconds < 1 then 1 else vestingSeconds);
      balance := balance + a;
    }

    /** Refused unless the amount is allowed now. */
    method Withdraw(now: nat, a: nat) returns (ok: bool)
      requires Valid() && now >= lastUpdate
      modifies this
      ensures Valid() && ok == (a <= AllowedCdd(old(AsCdd()), now))
      ensures !ok ==> AsCdd() == old(AsCdd())
      ensures ok ==> a * Unit(old(AsCdd())) <= Earned(old(AsCdd()), now) && a <= old(balance)
      ensures ok ==> AsCdd() == Withdrawn(old(AsCdd()), now, a)
    {
      var allowed := AllowedWithdraw(now);
      if a > allowed { return false; }
      AllowedIsCovered(AsCdd(), now, a);
      CapIsKept(AsCdd(), now, a);
      UpdateCoinSecondsEarned(now);
      earned := earned - a * (if vestingSeconds < 1 then 1 else vestingSeconds);
      balance := balance - a;
      ok := true;
    }

    function AllowedWithdraw(now: nat): nat
      reads this
      requires now >= lastUpdate
    {
      if now <= startClaim then 0
      else
        var unit := if vestingSeconds < 1 then 1 else vestingSeconds;
        Min(earned + balance * (now - lastUpdate), balance * unit) / unit
    }
  }

  // ---------- linear vesting ----------

  datatype Linear = Linear(begin: nat, cliff: nat, duration: nat, beginBalance: nat, balance: nat)

  /** What has vested by a time: nothing up to the cliff, then in proportion, then everything. */
  function VestedBy(v: Linear, now: nat): nat {
    if now <= v.begin || now - v.begin < v.cliff then 0
    else if now - v.begin < v.duration then
      QuotientIsNat(v.beginBalance, now - v.begin, v.duration);
      v.beginBalance * (now - v.begin) / v.duration
    else v.beginBalance
  }

  /** get_allowed_withdraw; the subtraction may go below zero, which the code only asserts against. */
  function AllowedLinear(v: Linear, now: nat): int {
    if now <= v.begin || now - v.begin < v.cliff then 0
    else VestedBy(v, now) - (v.beginBalance - v.balance)
  }

  lemma ShareGrows(b: nat, e1: nat, e2: nat, duration: nat)
    requires e1 <= e2 <= duration && duration > 0
    ensures b * e1 / duration <= b * e2 / duration <= b
  {
    MulMono(e1, e2, b);
    MulMono(e2, duration, b);
    DivMono(b * e1, b * e2, duration);
    DivMono(b * e2, b * duration, duration);
    DivUnique(b * duration, duration, b, 0);
  }

  lemma VestingGrows(v: Linear, t1: nat, t2: nat)
    requires t1 <= t2
    ensures VestedBy(v, t1) <= VestedBy(v, t2) <= v.beginBalance
  {
    if v.begin < t1 && t1 - v.begin < v.duration {
      ShareGrows(v.beginBalance, t1 - v.begin, Min(t2 - v.begin, v.duration), v.duration);
    }
    if v.begin < t2 && t2 - v.begin < v.duration {
      ShareGrows(v.beginBalance, t2 - v.begin, v.duration, v.duration);
    }
  }

  /** Nothing vests up to the cliff; after it, the share of the begin balance for the time that has passed, rounded
      down, and in the end all of it. */
  lemma VestsInProportion(v: Linear, now: nat)
    ensures now <= v.begin || now < v.begin + v.cliff ==> VestedBy(v, now) == 0
    ensures now > v.begin && now >= v.begin + v.cliff ==>
      var n, elapsed := VestedBy(v, now), now - v.begin;
      if elapsed >= v.duration then n == v.beginBalance
      else n * v.duration <= v.beginBalance * elapsed < (n + 1) * v.duration
  {
    if now > v.begin && now - v.begin < v.duration {
      DivIsLargest(v.beginBalance * (now - v.begin), v.duration, 0);
    }
  }

  /** What may be withdrawn and what was withdrawn already, deposits counted against it, make up what has vested. */
  lemma AllowedIsVested(v: Linear, now: nat)
    requires now > v.begin && now >= v.begin + v.cliff
    ensures AllowedLinear(v, now) + v.beginBalance == VestedBy(v, now) + v.balance
  {
  }

  datatype LinearOp = Put(now: nat, a: nat) | Take(now: nat, a: nat)

  predicate LinearPermitted(v: Linear, op: LinearOp) {
    match op
    case Put(_, a) => DepositAllowed(v.balance, a)
    case Take(now, a) => a <= v.balance && a <= AllowedLinear(v, now)
  }

  function LinearApplied(v: Linear, op: LinearOp): Linear
    requires LinearPermitted(v, op)
  {
    match op
    case Put(_, a) => v.(balance := v.balance + a)
    case Take(_, a) => v.(balance := v.balance - a)
  }

  ghost predicate LinearRun(v: Linear, ops: seq<LinearOp>, from: nat)
    decreases |ops|
  {
    ops == [] ||
    (ops[0].now >= from && LinearPermitted(v, ops[0]) && LinearRun(LinearApplied(v, ops[0]), ops[1..], ops[0].now))
  }

  function Sum(ops: seq<LinearOp>, takes: bool): nat
    decreases |ops|
  {
    if ops == [] then 0 else (if ops[0].Take? == takes then ops[0].a else 0) + Sum(ops[1..], takes)
  }

  /** At the end of every run the total withdrawn is within what has vested plus what was deposited: a later deposit
      can be withdrawn at once.  `taken` and `put` count what came before. */
  lemma {:induction false} LinearRunsAreCovered(v: Linear, ops: seq<LinearOp>, from: nat, taken: nat, put: nat,
      end: nat)
    requires LinearRun(v, ops, from)
    requires v.balance + taken == v.beginBalance + put
    requires taken <= VestedBy(v, from) + put
    requires forall i :: 0 <= i < |ops| ==> ops[i].now <= end
    requires from <= end
    ensures taken + Sum(ops, true) <= VestedBy(v, end) + put + Sum(ops, false)
    decreases |ops|
  {
    if ops == [] {
      VestingGrows(v, from, end);
    } else {
      var op := ops[0];
      VestingGrows(v, from, op.now);
      assert forall i :: 0 <= i < |ops[1..]| ==> ops[1..][i] == ops[i + 1];
      match op
      case Put(_, a) => LinearRunsAreCovered(LinearApplied(v, op), ops[1..], op.now, taken, put + a, end);
      case Take(_, a) => LinearRunsAreCovered(LinearApplied(v, op), ops[1..], op.now, taken + a, put, end);
    }
  }

  /** Without deposits, nothing is withdrawn before it has vested. */
  lemma LinearWithoutDeposits(v: Linear, ops: seq<LinearOp>, from: nat, end: nat)
    requires v.balance == v.beginBalance && LinearRun(v, ops, from) && from <= end
    requires forall i :: 0 <= i < |ops| ==> ops[i].Take? && ops[i].now <= end
    ensures Sum(ops, true) <= VestedBy(v, end)
  {
    LinearRunsAreCovered(v, ops, from, 0, 0, end);
    NoPuts(ops);
  }

  lemma {:induction false} NoPuts(ops: seq<LinearOp>)
    requires forall i :: 0 <= i < |ops| ==> ops[i].Take?
    ensures Sum(ops, false) == 0
    decreases |ops|
  {
    if ops != [] {
      assert forall i :: 0 <= i < |ops[1..]| ==> ops[1..][i] == ops[i + 1];
      NoPuts(ops[1..]);
    }
  }

  /** A deposit into a linear balance, which its comment rules out, is allowed, and all of it can be taken out again at
      once as soon as the cliff has passed; this is about builds without asserts, one of which says that no more has
      been deposited than was withdrawn. */
  lemma DepositVestsAtOnce(v: Linear, now: nat, a: nat)
    requires DepositAllowed(v.balance, a) && now > v.begin && now - v.begin >= v.cliff
    ensures LinearPermitted(v, Put(now, a))
    ensures AllowedLinear(LinearApplied(v, Put(now, a)), now) == AllowedLinear(v, now) + a
  {
  }
}
