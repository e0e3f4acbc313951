/**
 * The budget of the core asset at a maintenance interval: how much of the reserve may be spent, on
 * witnesses first and then on workers in the order of their votes (libraries/chain/db_maint.cpp,
 * libraries/chain/worker_evaluator.cpp).
 */
module Budget {
  import opened Arithmetic
  import opened Common
  import opened MapSums

  const CYCLE_RATE: nat := 17
  const CYCLE_RATE_DENOMINATOR: nat := 0x1_0000_0000  // 1 << 32
  const DAY: nat := 86400
  const MICROSECONDS: nat := 1000000

  /** Where a worker's pay goes. */
  datatype Pay = Refund(burned: nat) | Vesting(balance: nat) | Burn(burned: nat)
  datatype Worker = Worker(begin: nat, end: nat, dailyPay: nat, votesFor: nat, votesAgainst: nat, pay: Pay)

  // ---------- who is paid, in which order ----------

  predicate Active(w: Worker, now: nat) {
    w.begin <= now <= w.end && w.votesFor > w.votesAgainst
  }

  /** More votes first; a tie goes to the lower id. */
  predicate Before(ws: seq<Worker>, i: nat, j: nat)
    requires i < |ws| && j < |ws|
  {
    var vi, vj := ws[i].votesFor - ws[i].votesAgainst, ws[j].votesFor - ws[j].votesAgainst;
    vi > vj || (vi == vj && i < j)
  }

  predicate Indices(ws: seq<Worker>, order: seq<nat>) {
    forall a :: 0 <= a < |order| ==> order[a] < |ws|
  }

  function Insert(ws: seq<Worker>, i: nat, order: seq<nat>): (r: seq<nat>)
    requires i < |ws| && Indices(ws, order)
    ensures |r| == |order| + 1 && Indices(ws, r)
  {
    if order == [] then [i]
    else if Before(ws, i, order[0]) then [i] + order
    else [order[0]] + Insert(ws, i, order[1..])
  }

  /** The active workers among the first `n`, by rank. */
  function Ranked(ws: seq<Worker>, now: nat, n: nat): (r: seq<nat>)
    requires n <= |ws|
    ensures Indices(ws, r)
    decreases n
  {
    if n == 0 then []
    else if Active(ws[n - 1], now) then Insert(ws, n - 1, Ranked(ws, now, n - 1))
    else Ranked(ws, now, n - 1)
  }

  ghost predicate InOrder(ws: seq<Worker>, order: seq<nat>)
    requires Indices(ws, order)
  {
    forall a, b :: 0 <= a < b < |order| ==> Before(ws, order[a], order[b])
  }

  lemma {:induction false} InsertAdds(ws: seq<Worker>, i: nat, order: seq<nat>, k: nat)
    requires i < |ws| && Indices(ws, order)
    ensures k in Insert(ws, i, order) <==> k == i || k in order
  {
    if order != [] && !Before(ws, i, order[0]) { InsertAdds(ws, i, order[1..], k); }
  }

  lemma {:induction false} InsertKeepsOrder(ws: seq<Worker>, i: nat, order: seq<nat>)
    requires i < |ws| && Indices(ws, order) && InOrder(ws, order) && i !in order
    ensures InOrder(ws, Insert(ws, i, order))
  {
    if order != [] && !Before(ws, i, order[0]) {
      var rest := order[1..];
      forall a, b | 0 <= a < b < |rest| ensures Before(ws, rest[a], rest[b]) {
        assert rest[a] == order[a + 1] && rest[b] == order[b + 1];
      }
      InsertKeepsOrder(ws, i, rest);
      var r := Insert(ws, i, rest);
      forall b | 0 <= b < |r| ensures Before(ws, order[0], r[b]) {
        InsertAdds(ws, i, rest, r[b]);
        if r[b] != i {
          var c :| 0 <= c < |rest| && rest[c] == r[b];
          assert rest[c] == order[c + 1];
        }
      }
    }
  }

  /** Exactly the active workers are ranked, and in strict order, hence each once. */
  lemma RankedIsInOrder(ws: seq<Worker>, now: nat, n: nat)
    requires n <= |ws|
    ensures InOrder(ws, Ranked(ws, now, n))
    ensures forall k: nat :: k in Ranked(ws, now, n) <==> k < n && Active(ws[k], now)
  {
    forall k: nat ensures k in Ranked(ws, now, n) <==> k < n && Active(ws[k], now) { RankedAreActive(ws, now, n, k); }
    RankedAreOrdered(ws, now, n);
  }

  lemma {:induction false} RankedAreActive(ws: seq<Worker>, now: nat, n: nat, k: nat)
    requires n <= |ws|
    ensures k in Ranked(ws, now, n) <==> k < n && Active(ws[k], now)
    decreases n
  {
    if n > 0 {
      RankedAreActive(ws, now, n - 1, k);
      if Active(ws[n - 1], now) { InsertAdds(ws, n - 1, Ranked(ws, now, n - 1), k); }
    }
  }

  lemma {:induction false} RankedAreOrdered(ws: seq<Worker>, now: nat, n: nat)
    requires n <= |ws|
    ensures InOrder(ws, Ranked(ws, now, n))
    decreases n
  {
    if n > 0 {
      RankedAreOrdered(ws, now, n - 1);
      RankedAreActive(ws, now, n - 1, n - 1);
      if Active(ws[n - 1], now) { InsertKeepsOrder(ws, n - 1, Ranked(ws, now, n - 1)); }
    }
  }

  function NetVotes(w: Worker): int {
    w.votesFor - w.votesAgainst
  }

  /** Nobody is ranked above a worker with more net votes, ties go to the lower id, and whoever has net votes and is
      within the time of the proposal is ranked. */
  ghost predicate ByVotes(ws: seq<Worker>, now: nat, order: seq<nat>) {
    && Indices(ws, order)
    && (forall a, b :: 0 <= a < b < |order| ==>
          && NetVotes(ws[order[a]]) >= NetVotes(ws[order[b]])
          && (NetVotes(ws[order[a]]) == NetVotes(ws[order[b]]) ==> order[a] < order[b]))
    && forall k: nat :: k in order <==> Entitled(ws, now, k)
  }

  predicate Entitled(ws: seq<Worker>, now: nat, j: nat) {
    j < |ws| && ws[j].begin <= now <= ws[j].end && NetVotes(ws[j]) > 0
  }

  lemma RankedByVotes(ws: seq<Worker>, now: nat)
    ensures ByVotes(ws, now, Ranked(ws, now, |ws|))
  {
    var order := Ranked(ws, now, |ws|);
    RankedIsInOrder(ws, now, |ws|);
    forall a, b | 0 <= a < b < |order|
      ensures NetVotes(ws[order[a]]) >= NetVotes(ws[order[b]])
      ensures NetVotes(ws[order[a]]) == NetVotes(ws[order[b]]) ==> order[a] < order[b]
    {
      assert Before(ws, order[a], order[b]);
    }
  }

  // ---------- how much each is paid ----------

  /** The daily pay, scaled when the last budget was not exactly a day ago. */
  function Requested(dailyPay: nat, elapsed: nat): nat {
    if elapsed == DAY then dailyPay else dailyPay * (elapsed * MICROSECONDS) / (DAY * MICROSECONDS)
  }

  /** A request is the daily pay for the time that has passed, rounded down to a unit. */
  lemma RequestIsShare(dailyPay: nat, elapsed: nat)
    ensures var r := Requested(dailyPay, elapsed); r * DAY <= dailyPay * elapsed < (r + 1) * DAY
  {
    var r := Requested(dailyPay, elapsed);
    if elapsed == DAY {
      Distribute(r, 1, DAY);
    } else {
      Rotate(dailyPay, elapsed, MICROSECONDS);
      Rotate(dailyPay, MICROSECONDS, elapsed);
      DivIsLargest(dailyPay * (elapsed * MICROSECONDS), DAY * MICROSECONDS, r);
    }
  }

  function Requests(ws: seq<Worker>, order: seq<nat>, elapsed: nat): (r: seq<nat>)
    requires Indices(ws, order)
    ensures |r| == |order|
  {
    seq(|order|, i requires 0 <= i < |order| => Requested(ws[order[i]].dailyPay, elapsed))
  }

  /** Each gets what it asks for or what is left, until nothing is left. */
  function Pays(requests: seq<nat>, budget: nat): seq<nat> {
    if requests == [] || budget == 0 then []
    else [Min(budget, requests[0])] + Pays(requests[1..], budget - Min(budget, requests[0]))
  }

  lemma {:induction false} TotalAppend(s: seq<nat>, x: nat)
    ensures Total(s + [x]) == Total(s) + x
  {
    if s == [] { assert s + [x] == [x]; }
    else {
      TotalAppend(s[1..], x);
      assert (s + [x])[1..] == s[1..] + [x];
    }
  }

  /** Nobody gets more than asked; a worker is paid only after everybody ranked above got all they asked for;
      and money is left over only when everybody did. */
  lemma {:induction false} HigherRanksFirst(requests: seq<nat>, budget: nat)
    ensures var pays := Pays(requests, budget);
      && |pays| <= |requests| && Total(pays) <= budget
      && (forall i :: 0 <= i < |pays| ==> pays[i] <= requests[i])
      && (forall i :: 0 <= i < |pays| - 1 ==> pays[i] == requests[i])
      && (Total(pays) < budget ==> pays == requests)
    decreases |requests|
  {
    if requests != [] && budget != 0 {
      HigherRanksFirst(requests[1..], budget - Min(budget, requests[0]));
      var rest := Pays(requests[1..], budget - Min(budget, requests[0]));
      forall i | 0 <= i < |rest| ensures ([Min(budget, requests[0])] + rest)[i] == requests[i] {
        if i > 0 { assert rest[i - 1] == requests[1..][i - 1]; }
      }
    }
  }

  // ---------- what paying does ----------

  /** The state that pay_worker touches. */
  datatype Purse = Purse(supply: int, nullBalance: nat, vesting: map<nat, nat>, workers: seq<Worker>)

  ghost predicate Payable(p: Purse) {
    forall i :: 0 <= i < |p.workers| && p.workers[i].pay.Vesting? ==> p.workers[i].pay.balance in p.vesting
  }

  /** A refund is taken off the supply, vesting and burnt pay are balances of somebody. */
  function Paid(p: Purse, i: nat, pay: nat): Purse
    requires i < |p.workers| && (p.workers[i].pay.Vesting? ==> p.workers[i].pay.balance in p.vesting)
  {
    match p.workers[i].pay
    case Refund(n) => p.(supply := p.supply - pay, workers := p.workers[i := p.workers[i].(pay := Refund(n + pay))])
    case Vesting(b) => p.(vesting := p.vesting[b := p.vesting[b] + pay])
    case Burn(n) =>
      p.(nullBalance := p.nullBalance + pay, workers := p.workers[i := p.workers[i].(pay := Burn(n + pay))])
  }

  ghost function PaidAll(p: Purse, order: seq<nat>, pays: seq<nat>): (r: Purse)
    requires Payable(p) && |pays| <= |order| && Indices(p.workers, order)
    ensures Payable(r) && |r.workers| == |p.workers|
    decreases |pays|
  {
    if pays == [] then p
    else
      var n := |pays| - 1;
      var q := PaidAll(p, order, pays[..n]);
      Paid(q, order[n], pays[n])
  }

  ghost function Amount(): (nat, nat) -> int { (k: nat, v: nat) => v }

  /** Core that belongs to somebody, given what is set aside for fees and witnesses, measured against the supply. */
  ghost function Unassigned(p: Purse): int {
    p.supply - p.nullBalance - Sum(p.vesting, Amount())
  }

  /** Whatever kind of worker is paid, the supply net of balances falls by exactly the pay. */
  lemma PayIsAccounted(p: Purse, i: nat, pay: nat)
    requires Payable(p) && i < |p.workers|
    ensures Unassigned(Paid(p, i, pay)) == Unassigned(p) - pay
    ensures Paid(p, i, pay).supply <= p.supply
  {
    if p.workers[i].pay.Vesting? {
      SumUpdate<nat, nat>(p.vesting, p.workers[i].pay.balance, p.vesting[p.workers[i].pay.balance] + pay, Amount());
    }
  }

  lemma {:induction false} PaysAreAccounted(p: Purse, order: seq<nat>, pays: seq<nat>)
    requires Payable(p) && |pays| <= |order| && Indices(p.workers, order)
    ensures Unassigned(PaidAll(p, order, pays)) == Unassigned(p) - Total(pays)
    ensures PaidAll(p, order, pays).supply <= p.supply
    decreases |pays|
  {
    if pays != [] {
      var n := |pays| - 1;
      PaysAreAccounted(p, order, pays[..n]);
      PayIsAccounted(PaidAll(p, order, pays[..n]), order[n], pays[n]);
      TotalAppend(pays[..n], pays[n]);
      assert pays == pays[..n] + [pays[n]];
    }
  }

  /** Where a worker's pay ends up. */
  datatype Destination = Reserve | NullAccount | VestingBalance(b: nat)

  function GoesTo(pay: Pay): Destination {
    match pay
    case Refund(_) => Reserve
    case Vesting(b) => VestingBalance(b)
    case Burn(_) => NullAccount
  }

  ghost function PaidTo(ws: seq<Worker>, order: seq<nat>, pays: seq<nat>, d: Destination): nat
    requires |pays| <= |order| && Indices(ws, order)
    decreases |pays|
  {
    if pays == [] then 0
    else
      var n := |pays| - 1;
      PaidTo(ws, order, pays[..n], d) + if GoesTo(ws[order[n]].pay) == d then pays[n] else 0
  }

  lemma {:induction false} DestinationsStay(p: Purse, order: seq<nat>, pays: seq<nat>, i: nat)
    requires Payable(p) && |pays| <= |order| && Indices(p.workers, order) && i < |p.workers|
    ensures GoesTo(PaidAll(p, order, pays).workers[i].pay) == GoesTo(p.workers[i].pay)
    decreases |pays|
  {
    if pays != [] { DestinationsStay(p, order, pays[..|pays| - 1], i); }
  }

  /** Refunds, and nothing else, leave the supply; what is burnt is the null account's; and each vesting balance has
      what its own workers were paid. */
  lemma {:induction false} PaysArrive(p: Purse, order: seq<nat>, pays: seq<nat>)
    requires Payable(p) && |pays| <= |order| && Indices(p.workers, order)
    ensures var q := PaidAll(p, order, pays);
      && q.supply == p.supply - PaidTo(p.workers, order, pays, Reserve)
      && q.nullBalance == p.nullBalance + PaidTo(p.workers, order, pays, NullAccount)
      && q.vesting.Keys == p.vesting.Keys
      && forall b :: b in p.vesting ==>
           q.vesting[b] == p.vesting[b] + PaidTo(p.workers, order, pays, VestingBalance(b))
    decreases |pays|
  {
    if pays != [] {
      var n := |pays| - 1;
      PaysArrive(p, order, pays[..n]);
      DestinationsStay(p, order, pays[..n], order[n]);
    }
  }

  // ---------- how much may be spent ----------

  /** A share of the reserve that grows with time, rounded up, and never more than the reserve. */
  function TotalBudget(reserve: nat, dt: nat): nat {
    var budget := (reserve * dt * CYCLE_RATE + CYCLE_RATE_DENOMINATOR - 1) / CYCLE_RATE_DENOMINATOR;
    if budget < reserve then budget else reserve
  }

  /** Rounding up leaves no reserve that could never be spent. */
  lemma NoUntouchableReserve(reserve: nat, dt: nat)
    requires reserve > 0 && dt > 0
    ensures 0 < TotalBudget(reserve, dt) <= reserve
  {
    assert reserve * dt >= 1;
    var n := reserve * dt * CYCLE_RATE + CYCLE_RATE_DENOMINATOR - 1;
    assert n >= CYCLE_RATE_DENOMINATOR;
  }

  /** The budget is the cycle rate's share of the reserve for the time that has passed, rounded up, or all of it. */
  lemma BudgetIsShare(reserve: nat, dt: nat)
    ensures var t, share := TotalBudget(reserve, dt), reserve * dt * CYCLE_RATE;
      && t <= reserve && t * CYCLE_RATE_DENOMINATOR < share + CYCLE_RATE_DENOMINATOR
      && (t < reserve ==> share <= t * CYCLE_RATE_DENOMINATOR)
  {
    var share := reserve * dt * CYCLE_RATE;
    var up := (share + CYCLE_RATE_DENOMINATOR - 1) / CYCLE_RATE_DENOMINATOR;
    assert share + CYCLE_RATE_DENOMINATOR - 1
      == up * CYCLE_RATE_DENOMINATOR + (share + CYCLE_RATE_DENOMINATOR - 1) % CYCLE_RATE_DENOMINATOR;
  }

  datatype Parameters = Parameters(witnessPayPerBlock: nat, workerBudgetPerDay: nat, blockInterval: nat)

  function BlocksToMaintenance(timeToMaintenance: nat, blockInterval: nat): nat
    requires blockInterval > 0
  {
    (timeToMaintenance + blockInterval - 1) / blockInterval
  }

  function WitnessPay(p: Parameters, timeToMaintenance: nat): nat
    requires p.blockInterval > 0
  {
    p.witnessPayPerBlock * BlocksToMaintenance(timeToMaintenance, p.blockInterval)
  }

  function WorkerBudget(p: Parameters, timeToMaintenance: nat): nat {
    p.workerBudgetPerDay * timeToMaintenance / DAY
  }

  /** The witnesses are paid for every interval begun before maintenance, the workers by the time there is to it. */
  lemma BudgetsAreShares(p: Parameters, timeToMaintenance: nat)
    requires p.blockInterval > 0
    ensures var blocks := BlocksToMaintenance(timeToMaintenance, p.blockInterval);
      && timeToMaintenance <= blocks * p.blockInterval < timeToMaintenance + p.blockInterval
      && WitnessPay(p, timeToMaintenance) == p.witnessPayPerBlock * blocks
    ensures var w, share := WorkerBudget(p, timeToMaintenance), p.workerBudgetPerDay * timeToMaintenance;
      w * DAY <= share < (w + 1) * DAY
  {
    var n := timeToMaintenance + p.blockInterval - 1;
    assert n == (n / p.blockInterval) * p.blockInterval + n % p.blockInterval;
    DivIsLargest(p.workerBudgetPerDay * timeToMaintenance, DAY, 0);
  }

  class CoreAsset {
    const maxSupply: nat
    var currentSupply: int
    var accumulatedFees: nat
    var witnessBudget: nat
    var lastBudgetTime: nat  // 0 before the first budget
    var nullBalance: nat
    var vesting: map<nat, nat>
    var workers: seq<Worker>

    ghost function AsPurse(): Purse reads this {
      Purse(currentSupply, nullBalance, vesting, workers)
    }

    ghost predicate Valid() reads this {
      currentSupply <= maxSupply && Payable(AsPurse())
    }

    /** Supply that is neither collected fees, nor the witnesses' budget, nor a balance credited to workers. */
    ghost function Elsewhere(): int reads this {
      Unassigned(AsPurse()) - accumulatedFees - witnessBudget
    }

    constructor (maxSupply: nat, supply: nat, workers: seq<Worker>, balances: set<nat>)
      requires supply <= maxSupply
      requires forall i :: 0 <= i < |workers| && workers[i].pay.Vesting? ==> workers[i].pay.balance in balances
      ensures Valid() && this.maxSupply == maxSupply && currentSupply == supply
    {
      this.maxSupply, currentSupply := maxSupply, supply;
      accumulatedFees, witnessBudget, lastBudgetTime, nullBalance := 0, 0, 0, 0;
      vesting, this.workers := map b | b in balances :: 0, workers;
    }

    method PayWorker(i: nat, pay: nat)
      requires Payable(AsPurse()) && i < |workers|
      modifies this`currentSupply, this`nullBalance, this`vesting, this`workers
      ensures AsPurse() == Paid(old(AsPurse()), i, pay)
    {
      match workers[i].pay
      case Refund(n) =>
        workers := workers[i := workers[i].(pay := Refund(n + pay))];
        currentSupply := currentSupply - pay;
      case Vesting(b) =>
        vesting := vesting[b := vesting[b] + pay];
      case Burn(n) =>
        workers := workers[i := workers[i].(pay := Burn(n + pay))];
        nullBalance := nullBalance + pay;
    }

    /** By rank, and so by votes. */
    method PayWorkers(budget: nat, now: nat) returns (left: nat)
      requires Payable(AsPurse()) && now >= lastBudgetTime
      modifies this`currentSupply, this`nullBalance, this`vesting, this`workers
      ensures AllPaid(old(AsPurse()), AsPurse(), Ranked(old(workers), now, |old(workers)|), now - lastBudgetTime,
        budget, left)
      ensures PaidByVotes(old(AsPurse()), AsPurse(), now, now - lastBudgetTime, budget, left)
    {
      ghost var start, order := AsPurse(), Ranked(workers, now, |workers|);
      left := PayRanked(budget, now);
      IsPaidByVotes(start, AsPurse(), order, now, now - lastBudgetTime, budget, left);
    }

    method PayRanked(budget: nat, now: nat) returns (left: nat)
      requires Payable(AsPurse()) && now >= lastBudgetTime
      modifies this`currentSupply, this`nullBalance, this`vesting, this`workers
      ensures AllPaid(old(AsPurse()), AsPurse(), Ranked(old(workers), now, |old(workers)|), now - lastBudgetTime,
        budget, left)
    {
      var order, dt := Ranked(workers, now, |workers|), now - lastBudgetTime;
      left := budget;
      ghost var start := AsPurse();
      ghost var paid: seq<nat> := [];
      PayingStarts(start, order, dt, budget);
      var i := 0;
      while i < |order| && left > 0
        invariant i == |paid| <= |order| && Paying(start, AsPurse(), order, dt, budget, paid, left)
      {
        var pay := PayNext(start, order, i, dt, budget, paid, left);
        left := left - pay;
        paid := paid + [pay];
        i := i + 1;
      }
      PayingEnds(start, AsPurse(), order, dt, budget, paid, left);
    }

    /** The next worker gets what it asks for, or what is left. */
    method PayNext(ghost start: Purse, order: seq<nat>, i: nat, dt: nat, ghost budget: nat, ghost paid: seq<nat>,
        left: nat)
        returns (pay: nat)
      requires Paying(start, AsPurse(), order, dt, budget, paid, left) && i == |paid| < |order| && left > 0
      modifies this`currentSupply, this`nullBalance, this`vesting, this`workers
      ensures pay <= left && Paying(start, AsPurse(), order, dt, budget, paid + [pay], left - pay)
    {
      PayingStep(start, AsPurse(), order, dt, budget, paid, left);
      pay := Min(left, Requested(workers[order[i]].dailyPay, dt));
      PayWorker(order[i], pay);
    }

    /** Spends what the budget allows: the supply never passes its maximum, the collected fees and the old witness
        budget return to the reserve, and every unit that leaves it is a witness budget or a balance. */
    method ProcessBudget(p: Parameters, now: nat, timeToMaintenance: nat)
      requires Valid() && p.blockInterval > 0 && timeToMaintenance > 0
      modifies this
      ensures Valid()
      ensures Elsewhere() == old(Elsewhere())
      ensures accumulatedFees == 0 && lastBudgetTime == now
      ensures witnessBudget == Min(WitnessPay(p, timeToMaintenance),
        old(Spendable(now)))
      ensures AsPurse() == Budgeted(old(AsPurse()), now, now - old(lastBudgetTime),
        Min(old(Spendable(now)) - witnessBudget, WorkerBudget(p, timeToMaintenance)),
        witnessBudget - old(accumulatedFees) - old(witnessBudget))
    {
      var returned: int := accumulatedFees + witnessBudget;
      var forWitnesses, forWorkers := Shares(p, now, timeToMaintenance);
      Spend(forWorkers, now, forWitnesses - returned);
      accumulatedFees := 0;
      witnessBudget := forWitnesses;
      lastBudgetTime := now;
    }

    /** The workers' share is paid out, if there is any; what they get enters the supply along with `change`. */
    method Spend(budget: nat, now: nat, change: int)
      requires Payable(AsPurse()) && (budget > 0 ==> now >= lastBudgetTime)
      modifies this`currentSupply, this`nullBalance, this`vesting, this`workers
      ensures AsPurse() == Budgeted(old(AsPurse()), now, now - lastBudgetTime, budget, change)
      ensures Payable(AsPurse()) && currentSupply <= old(currentSupply) + change + budget
      ensures Unassigned(AsPurse()) == old(Unassigned(AsPurse())) + change
    {
      ghost var before := AsPurse();
      var left := 0;
      if budget > 0 {
        left := PayWorkers(budget, now);
      }
      BudgetedOf(before, AsPurse(), now, now - lastBudgetTime, budget, left, change);
      currentSupply := currentSupply + change + budget - left;
    }

    /** The witnesses' share comes first, then the workers'. */
    method Shares(p: Parameters, now: nat, timeToMaintenance: nat) returns (forWitnesses: nat, forWorkers: nat)
      requires Valid() && p.blockInterval > 0 && timeToMaintenance > 0
      ensures forWitnesses == Min(WitnessPay(p, timeToMaintenance),
        Spendable(now))
      ensures forWorkers == Min(Spendable(now) - forWitnesses, WorkerBudget(p, timeToMaintenance))
      ensures currentSupply + forWitnesses + forWorkers - accumulatedFees - witnessBudget <= maxSupply
    {
      var available := 0;
      if lastBudgetTime != 0 && now > lastBudgetTime {
        available := TotalBudget(maxSupply - currentSupply + accumulatedFees + witnessBudget, now - lastBudgetTime);
      }
      forWitnesses := Min(WitnessPay(p, timeToMaintenance), available);
      available := available - forWitnesses;
      forWorkers := WorkerBudget(p, timeToMaintenance);
      if forWorkers >= available {
        forWorkers := available;
      }
    }

    /** What the budget may spend in all; nothing before the first budget or without time passing. */
    ghost function Spendable(now: nat): nat
      reads this
      requires currentSupply <= maxSupply
    {
      if lastBudgetTime == 0 || now <= lastBudgetTime then 0
      else TotalBudget(maxSupply - currentSupply + accumulatedFees + witnessBudget, now - lastBudgetTime)
    }
  }

  /** At most what is requested, for the time that has passed. */
  predicate IsRequest(w: Worker, dt: nat, n: nat) {
    n * DAY <= w.dailyPay * dt < (n + 1) * DAY
  }

  ghost predicate GotAll(ws: seq<Worker>, order: seq<nat>, pays: seq<nat>, dt: nat, j: nat)
    requires j < |ws|
  {
    exists b: nat :: b < |pays| && b < |order| && order[b] == j && IsRequest(ws[j], dt, pays[b])
  }

  /** Only workers with net votes are paid, each once and within its request and all within the budget; whoever has
      more net votes than one who is paid gets the whole request, and so does everybody when some of the budget
      remains. */
  ghost predicate VotesDecide(ws: seq<Worker>, now: nat, dt: nat, budget: nat, order: seq<nat>, pays: seq<nat>) {
    && |pays| <= |order| && Total(pays) <= budget
    && (forall a, b :: 0 <= a < b < |order| ==> order[a] != order[b])
    && (forall a :: 0 <= a < |pays| ==>
          Entitled(ws, now, order[a]) && pays[a] * DAY <= ws[order[a]].dailyPay * dt)
    && (forall a, j: nat :: 0 <= a < |pays| && Entitled(ws, now, j) && NetVotes(ws[j]) > NetVotes(ws[order[a]]) ==>
          GotAll(ws, order, pays, dt, j))
    && (Total(pays) < budget ==> forall j: nat :: Entitled(ws, now, j) ==> GotAll(ws, order, pays, dt, j))
  }

  lemma RanksDecide(
      ws: seq<Worker>, now: nat, dt: nat, budget: nat, order: seq<nat>, requests: seq<nat>, pays: seq<nat>)
    requires ByVotes(ws, now, order) && |requests| == |order| && pays == Pays(requests, budget)
    requires forall a: nat :: a < |order| ==> IsRequest(ws[order[a]], dt, requests[a])
    ensures VotesDecide(ws, now, dt, budget, order, pays)
  {
    HigherRanksFirst(requests, budget);
    forall a: nat | a < |pays| ensures Entitled(ws, now, order[a]) && pays[a] * DAY <= ws[order[a]].dailyPay * dt {
      assert order[a] in order && IsRequest(ws[order[a]], dt, requests[a]);
      MulMono(pays[a], requests[a], DAY);
    }
    forall a, j: nat | 0 <= a < |pays| && Entitled(ws, now, j) && NetVotes(ws[j]) > NetVotes(ws[order[a]])
      ensures GotAll(ws, order, pays, dt, j)
    {
      var b := RankOf(ws, now, order, j);
      assert b < a && IsRequest(ws[order[b]], dt, requests[b]) && pays[b] == requests[b];
    }
    if Total(pays) < budget {
      forall j: nat | Entitled(ws, now, j) ensures GotAll(ws, order, pays, dt, j) {
        var b := RankOf(ws, now, order, j);
        assert IsRequest(ws[order[b]], dt, requests[b]) && pays[b] == requests[b];
      }
    }
  }

  lemma RankOf(ws: seq<Worker>, now: nat, order: seq<nat>, j: nat) returns (b: nat)
    requires ByVotes(ws, now, order) && Entitled(ws, now, j)
    ensures b < |order| && order[b] == j
  {
    assert j in order;
    b :| b < |order| && order[b] == j;
  }

  lemma AreRequests(ws: seq<Worker>, order: seq<nat>, dt: nat)
    requires Indices(ws, order)
    ensures forall a: nat :: a < |order| ==> IsRequest(ws[order[a]], dt, Requests(ws, order, dt)[a])
  {
    forall a: nat | a < |order| ensures IsRequest(ws[order[a]], dt, Requests(ws, order, dt)[a]) {
      RequestIsShare(ws[order[a]].dailyPay, dt);
    }
  }

  /** The purse after pays that the votes decide. */
  ghost predicate PaidByVotes(p: Purse, after: Purse, now: nat, dt: nat, budget: nat, left: nat) {
    exists order, pays :: IsPaymentByVotes(p, after, now, dt, budget, left, order, pays)
  }

  ghost predicate IsPaymentByVotes(
      p: Purse, after: Purse, now: nat, dt: nat, budget: nat, left: nat, order: seq<nat>, pays: seq<nat>)
  {
    IsPayment(p, after, order, pays) && left + Total(pays) == budget
    && VotesDecide(p.workers, now, dt, budget, order, pays)
  }

  /** What is paid arrives where each worker's pay goes. */
  ghost predicate IsPayment(p: Purse, after: Purse, order: seq<nat>, pays: seq<nat>) {
    && |pays| <= |order| && Indices(p.workers, order)
    && after.supply == p.supply - PaidTo(p.workers, order, pays, Reserve)
    && after.nullBalance == p.nullBalance + PaidTo(p.workers, order, pays, NullAccount)
    && after.vesting.Keys == p.vesting.Keys
    && forall b :: b in p.vesting ==>
         after.vesting[b] == p.vesting[b] + PaidTo(p.workers, order, pays, VestingBalance(b))
  }

  lemma IsPaidByVotes(p: Purse, after: Purse, order: seq<nat>, now: nat, dt: nat, budget: nat, left: nat)
    requires AllPaid(p, after, order, dt, budget, left) && order == Ranked(p.workers, now, |p.workers|)
    ensures PaidByVotes(p, after, now, dt, budget, left)
  {
    var pays := Pays(Requests(p.workers, order, dt), budget);
    RankedByVotes(p.workers, now);
    AreRequests(p.workers, order, dt);
    RanksDecide(p.workers, now, dt, budget, order, Requests(p.workers, order, dt), pays);
    PaysArrive(p, order, pays);
    assert IsPaymentByVotes(p, after, now, dt, budget, left, order, pays);
  }

  lemma WorkersAccounted(p: Purse, after: Purse, order: seq<nat>, dt: nat, budget: nat, left: nat)
    requires AllPaid(p, after, order, dt, budget, left)
    ensures left <= budget && Payable(after) && after.supply <= p.supply
    ensures Unassigned(after) == Unassigned(p) - (budget - left)
  {
    var requests := Requests(p.workers, order, dt);
    HigherRanksFirst(requests, budget);
    PaysAreAccounted(p, order, Pays(requests, budget));
  }

  /** What the workers' share, if there is any, leaves. */
  ghost predicate Spent(p: Purse, after: Purse, now: nat, dt: int, budget: nat, left: nat) {
    if budget == 0 then after == p && left == 0
    else dt >= 0 && AllPaid(p, after, Ranked(p.workers, now, |p.workers|), dt, budget, left)
  }

  /** The workers are paid by rank as far as the budget goes, and what they get is added to the supply along with
      `change`. */
  ghost function Budgeted(p: Purse, now: nat, dt: int, budget: nat, change: int): Purse
    requires Payable(p) && (budget > 0 ==> dt >= 0)
  {
    if budget == 0 then p.(supply := p.supply + change)
    else
      var order := Ranked(p.workers, now, |p.workers|);
      var pays := Pays(Requests(p.workers, order, dt), budget);
      HigherRanksFirst(Requests(p.workers, order, dt), budget);
      var paid := PaidAll(p, order, pays);
      paid.(supply := paid.supply + change + Total(pays))
  }

  lemma BudgetedOf(p: Purse, paid: Purse, now: nat, dt: int, budget: nat, left: nat, change: int)
    requires Payable(p) && (budget > 0 ==> dt >= 0) && Spent(p, paid, now, dt, budget, left)
    ensures var after := paid.(supply := paid.supply + change + budget - left);
      && after == Budgeted(p, now, dt, budget, change)
      && Payable(after) && Unassigned(after) == Unassigned(p) + change && after.supply <= p.supply + change + budget
  {
    if budget > 0 { WorkersAccounted(p, paid, Ranked(p.workers, now, |p.workers|), dt, budget, left); }
  }

  /** `paid` is a first part of the pays, `p` the purse after them, and `left` what remains for the others. */
  ghost predicate Paying(start: Purse, p: Purse, order: seq<nat>, dt: nat, budget: nat, paid: seq<nat>, left: nat) {
    && Payable(start) && Indices(start.workers, order) && |paid| <= |order|
    && p == PaidAll(start, order, paid)
    && PartPaid(Requests(start.workers, order, dt), budget, paid, left)
  }

  ghost predicate PartPaid(requests: seq<nat>, budget: nat, paid: seq<nat>, left: nat) {
    && |paid| <= |requests| && left + Total(paid) == budget
    && Pays(requests, budget) == paid + Pays(requests[|paid|..], left)
  }

  /** The budget is paid out by rank as far as it goes. */
  ghost predicate AllPaid(start: Purse, p: Purse, order: seq<nat>, dt: nat, budget: nat, left: nat) {
    && Payable(start) && Indices(start.workers, order)
    && var pays := Pays(Requests(start.workers, order, dt), budget);
    && |pays| <= |order| && p == PaidAll(start, order, pays) && left == budget - Total(pays)
  }

  lemma PayingStarts(start: Purse, order: seq<nat>, dt: nat, budget: nat)
    requires Payable(start) && Indices(start.workers, order)
    ensures Paying(start, start, order, dt, budget, [], budget)
  {
    var requests := Requests(start.workers, order, dt);
    assert requests[0..] == requests;
  }

  lemma PayingStep(start: Purse, p: Purse, order: seq<nat>, dt: nat, budget: nat, paid: seq<nat>, left: nat)
    requires Paying(start, p, order, dt, budget, paid, left) && |paid| < |order| && left > 0
    ensures Payable(p) && order[|paid|] < |p.workers|
    ensures var pay := Min(left, Requested(p.workers[order[|paid|]].dailyPay, dt));
      Paying(start, Paid(p, order[|paid|], pay), order, dt, budget, paid + [pay], left - pay)
  {
    var requests := Requests(start.workers, order, dt);
    PaidAllKeepsRequests(start, order, paid, |paid|);
    var pay := Min(left, Requested(p.workers[order[|paid|]].dailyPay, dt));
    assert pay == Min(left, requests[|paid|]);
    PartPaidStep(requests, budget, paid, left);
    PaidAllStep(start, order, paid, pay);
  }

  lemma PartPaidStep(requests: seq<nat>, budget: nat, paid: seq<nat>, left: nat)
    requires PartPaid(requests, budget, paid, left) && |paid| < |requests| && left > 0
    ensures var pay := Min(left, requests[|paid|]); PartPaid(requests, budget, paid + [pay], left - pay)
  {
    var i, pay := |paid|, Min(left, requests[|paid|]);
    assert requests[i..][0] == requests[i] && requests[i..][1..] == requests[i + 1..];
    assert Pays(requests[i..], left) == [pay] + Pays(requests[i + 1..], left - pay);
    assert paid + ([pay] + Pays(requests[i + 1..], left - pay)) == (paid + [pay]) + Pays(requests[i + 1..], left - pay);
    TotalAppend(paid, pay);
  }

  lemma PayingEnds(start: Purse, p: Purse, order: seq<nat>, dt: nat, budget: nat, paid: seq<nat>, left: nat)
    requires Paying(start, p, order, dt, budget, paid, left) && (|paid| == |order| || left == 0)
    ensures AllPaid(start, p, order, dt, budget, left)
  {
    var requests := Requests(start.workers, order, dt);
    assert Pays(requests[|paid|..], left) == [];
    assert paid + [] == paid;
  }

  lemma PaidAllStep(p: Purse, order: seq<nat>, pays: seq<nat>, pay: nat)
    requires Payable(p) && |pays| < |order| && Indices(p.workers, order)
    ensures PaidAll(p, order, pays + [pay]) == Paid(PaidAll(p, order, pays), order[|pays|], pay)
  {
    assert (pays + [pay])[..|pays|] == pays;
  }

  /** Paying some workers does not change what the others ask for. */
  lemma {:induction false} PaidAllKeepsRequests(p: Purse, order: seq<nat>, pays: seq<nat>, i: nat)
    requires Payable(p) && |pays| <= |order| && Indices(p.workers, order) && i < |order|
    ensures PaidAll(p, order, pays).workers[order[i]].dailyPay == p.workers[order[i]].dailyPay
    decreases |pays|
  {
    if pays != [] { PaidAllKeepsRequests(p, order, pays[..|pays| - 1], i); }
  }
}
