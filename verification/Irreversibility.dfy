/**
 * How blocks become irreversible and how many undo records are kept meanwhile
 * (update_global_dynamic_data and update_last_irreversible_block in libraries/chain/db_update.cpp,
 * start_undo_session in libraries/db/undo_database.cpp).
 */
module OrderStatistics {

  /** How many elements are at least `v`. */
  function AtLeast(s: seq<nat>, v: nat): nat {
    if s == [] then 0 else (if s[0] >= v then 1 else 0) + AtLeast(s[1..], v)
  }

  function Without(s: seq<nat>, i: nat): (r: seq<nat>)
    requires i < |s|
    ensures |r| == |s| - 1
  {
    s[..i] + s[i + 1..]
  }

  function SmallestAt(s: seq<nat>): (i: nat)
    requires s != []
    ensures i < |s| && forall j :: 0 <= j < |s| ==> s[i] <= s[j]
  {
    if |s| == 1 then 0
    else
      var i := SmallestAt(s[1..]);
      assert s[1..][i] == s[i + 1];
      assert forall j :: 1 <= j < |s| ==> s[j] == s[1..][j - 1];
      if s[0] <= s[i + 1] then 0 else i + 1
  }

  /** What std::nth_element leaves at position `k`: the smallest element once k smallest ones are gone. */
  function Nth(s: seq<nat>, k: nat): nat
    requires k < |s|
    decreases k
  {
    if k == 0 then s[SmallestAt(s)] else Nth(Without(s, SmallestAt(s)), k - 1)
  }

  lemma {:induction false} AtLeastWithout(s: seq<nat>, i: nat, v: nat)
    requires i < |s|
    ensures AtLeast(s, v) == AtLeast(Without(s, i), v) + (if s[i] >= v then 1 else 0)
  {
    if i > 0 {
      AtLeastWithout(s[1..], i - 1, v);
      assert Without(s, i)[1..] == Without(s[1..], i - 1);
    } else {
      assert Without(s, 0) == s[1..];
    }
  }

  lemma {:induction false} AllAtLeast(s: seq<nat>, v: nat)
    requires forall i :: 0 <= i < |s| ==> s[i] >= v
    ensures AtLeast(s, v) == |s|
  {
    if s != [] { AllAtLeast(s[1..], v); }
  }

  /** The k-th order statistic, from both sides: all but k of the elements reach it, and more than k
      elements do not go beyond it. */
  lemma {:induction false} NthIsOrderStatistic(s: seq<nat>, k: nat)
    requires k < |s|
    ensures AtLeast(s, Nth(s, k)) >= |s| - k
    ensures |s| - AtLeast(s, Nth(s, k) + 1) > k
    decreases k
  {
    var i := SmallestAt(s);
    AtLeastWithout(s, i, Nth(s, k));
    AtLeastWithout(s, i, Nth(s, k) + 1);
    if k == 0 {
      AllAtLeast(s, s[i]);
      AtLeastBounded(Without(s, i), s[i] + 1);
    } else {
      NthIsOrderStatistic(Without(s, i), k - 1);
      NthIsElement(s, k);
    }
  }

  lemma {:induction false} NthIsElement(s: seq<nat>, k: nat)
    requires k < |s|
    ensures exists i: nat :: i < |s| && s[i] == Nth(s, k)
    ensures s[SmallestAt(s)] <= Nth(s, k)
    decreases k
  {
    var i := SmallestAt(s);
    if k > 0 {
      var rest := Without(s, i);
      NthIsElement(rest, k - 1);
      var j: nat :| j < |rest| && rest[j] == Nth(rest, k - 1);
      assert rest[j] == if j < i then s[j] else s[j + 1];
    }
  }

  lemma {:induction false} AtLeastBounded(s: seq<nat>, v: nat)
    ensures AtLeast(s, v) <= |s|
  {
    if s != [] { AtLeastBounded(s[1..], v); }
  }
}

module Irreversibility {
  import opened Arithmetic
  import opened Common
  import opened OrderStatistics
  import UndoSessions

  const IRREVERSIBLE_THRESHOLD: nat := 7000

  /** The blocks for which the irreversible number is set by hand. */
  predicate InMaintainedRange(head: nat) {
    34560000 <= head <= 34700000
  }

  function Offset(n: nat): nat {
    (HUNDRED_PERCENT - IRREVERSIBLE_THRESHOLD) * n / HUNDRED_PERCENT
  }

  type WitnessId = nat

  /** What of the chain state and of the undo database matters here. */
  datatype Progress = Progress(
    head: nat,
    irreversible: nat,
    confirmed: map<WitnessId, nat>,  // last_confirmed_block_num
    records: nat,                    // committed undo records
    limit: nat)                      // the undo database's size limit

  /** Whether a block applies, or throws before or after the undo limit is set. */
  datatype Verdict = Applies | FailsEarly | FailsLate

  /** A block as it arrives: its signer, the active witnesses, whether its number is checkpointed, whether the
      undo history check is skipped, and what comes of it otherwise. */
  datatype Arrival = Arrival(signer: WitnessId, active: seq<WitnessId>, checkpointed: bool, unchecked: bool,
    verdict: Verdict)

  predicate Expected(p: Progress, a: Arrival) {
    && a.active != [] && a.signer in p.confirmed
    && forall i :: 0 <= i < |a.active| ==> a.active[i] in p.confirmed
  }

  function Confirmations(confirmed: map<WitnessId, nat>, active: seq<WitnessId>): (r: seq<nat>)
    requires forall i :: 0 <= i < |active| ==> active[i] in confirmed
    ensures |r| == |active|
  {
    seq(|active|, i requires 0 <= i < |active| => confirmed[active[i]])
  }

  /** The number the last part of the block would make irreversible. */
  function Candidate(head: nat, confirmations: seq<nat>, checkpointed: bool): nat
    requires confirmations != []
  {
    if InMaintainedRange(head) then head - 20
    else if checkpointed then head
    else Nth(confirmations, Offset(|confirmations|))
  }

  /** Applying one block in one undo session. */
  function AfterBlock(p: Progress, a: Arrival, maxUndo: nat): Progress
    requires Expected(p, a)
  {
    var trimmed := if p.records > p.limit then p.limit else p.records;
    var head := p.head + 1;
    if a.verdict == FailsEarly || (!a.unchecked && head - p.irreversible >= maxUndo) then p.(records := trimmed)
    else
      var limit := if head - p.irreversible + 1 >= 0 then head - p.irreversible + 1 else 0;
      if a.verdict == FailsLate then p.(records := trimmed, limit := limit)
      else
        var confirmed := p.confirmed[a.signer := head];
        Progress(head, Max(p.irreversible, Candidate(head, Confirmations(confirmed, a.active), a.checkpointed)),
                 confirmed, trimmed + 1, limit)
  }

  /** The block is kept: neither the undo history check nor the block itself threw. */
  predicate Accepted(p: Progress, a: Arrival, maxUndo: nat) {
    a.verdict == Applies && (a.unchecked || p.head + 1 - p.irreversible < maxUndo)
  }

  // ---------- one step ----------

  /** The undo records reach back to the irreversible block, with room for one more session. */
  ghost predicate DeepEnough(p: Progress) {
    && p.irreversible <= p.head <= p.records + p.irreversible
    && p.head + 1 <= p.limit + p.irreversible
    && forall w :: w in p.confirmed ==> p.confirmed[w] <= p.head
  }

  lemma CandidateIsNotAboveHead(p: Progress, a: Arrival)
    requires Expected(p, a) && DeepEnough(p)
    ensures var c := Confirmations(p.confirmed[a.signer := p.head + 1], a.active);
      Candidate(p.head + 1, c, a.checkpointed) <= p.head + 1
  {
    var c := Confirmations(p.confirmed[a.signer := p.head + 1], a.active);
    NthIsElement(c, Offset(|c|));
  }

  lemma BlockKeepsDepth(p: Progress, a: Arrival, maxUndo: nat)
    requires Expected(p, a) && DeepEnough(p)
    ensures DeepEnough(AfterBlock(p, a, maxUndo))
    ensures AfterBlock(p, a, maxUndo).irreversible >= p.irreversible
    ensures AfterBlock(p, a, maxUndo).head == p.head + if Accepted(p, a, maxUndo) then 1 else 0
  {
    CandidateIsNotAboveHead(p, a);
  }

  /** Outside the two overrides, a rise is confirmed by all but `Offset` of the active witnesses, and so by the share of
      them that the threshold asks for. */
  lemma RiseIsConfirmed(p: Progress, a: Arrival, maxUndo: nat)
    requires Expected(p, a) && DeepEnough(p)
    requires var p' := AfterBlock(p, a, maxUndo);
      p'.irreversible > p.irreversible && !a.checkpointed && !InMaintainedRange(p'.head)
    ensures var p' := AfterBlock(p, a, maxUndo);
      && AtLeast(Confirmations(p'.confirmed, a.active), p'.irreversible) >= |a.active| - Offset(|a.active|)
      && AtLeast(Confirmations(p'.confirmed, a.active), p'.irreversible) * HUNDRED_PERCENT
           >= IRREVERSIBLE_THRESHOLD * |a.active|
  {
    var p', c := AfterBlock(p, a, maxUndo), Confirmations(p.confirmed[a.signer := p.head + 1], a.active);
    assert Confirmations(p'.confirmed, a.active) == c && p'.irreversible == Nth(c, Offset(|c|));
    NthIsOrderStatistic(c, Offset(|c|));
    NthIsConfirmed(c, p'.irreversible);
  }

  /** At least the threshold's share of the witnesses has confirmed block `m`. */
  ghost predicate Confirmed(confirmations: seq<nat>, m: nat) {
    AtLeast(confirmations, m) * HUNDRED_PERCENT >= IRREVERSIBLE_THRESHOLD * |confirmations|
  }

  /** The element at the offset is the highest block that is confirmed. */
  lemma NthIsConfirmed(c: seq<nat>, m: nat)
    requires c != []
    ensures Offset(|c|) < |c| && (Confirmed(c, m) <==> m <= Nth(c, Offset(|c|)))
  {
    OffsetIsShare(|c|, 0);
    var v := NthAt(c, Offset(|c|));
    IsHighestConfirmed(c, Offset(|c|), v, m);
  }

  lemma NthAt(c: seq<nat>, k: nat) returns (v: nat)
    requires k < |c|
    ensures v == Nth(c, k) && AtLeast(c, v + 1) < |c| - k <= AtLeast(c, v)
  {
    v := Nth(c, k);
    NthIsOrderStatistic(c, k);
  }

  lemma IsHighestConfirmed(c: seq<nat>, k: nat, v: nat, m: nat)
    requires c != [] && k == Offset(|c|) && AtLeast(c, v + 1) < |c| - k <= AtLeast(c, v)
    ensures Confirmed(c, m) <==> m <= v
  {
    OffsetIsShare(|c|, AtLeast(c, m));
    if m <= v { AtLeastFalls(c, m, v); } else { AtLeastFalls(c, v + 1, m); }
  }

  /** All but the offset are just enough for the threshold. */
  lemma OffsetIsShare(n: nat, r: nat)
    requires n > 0
    ensures Offset(n) < n
    ensures r * HUNDRED_PERCENT >= IRREVERSIBLE_THRESHOLD * n <==> r >= n - Offset(n)
  {
    var share := (HUNDRED_PERCENT - IRREVERSIBLE_THRESHOLD) * n;
    assert share == Offset(n) * HUNDRED_PERCENT + share % HUNDRED_PERCENT;
  }

  lemma {:induction false} AtLeastFalls(s: seq<nat>, v: nat, w: nat)
    requires v <= w
    ensures AtLeast(s, w) <= AtLeast(s, v)
  {
    if s != [] { AtLeastFalls(s[1..], v, w); }
  }

  /** What becomes irreversible with a block: in the maintained range the block 20 below it, at a checkpoint the block
      itself, and otherwise the highest one that the threshold's share of the active witnesses has confirmed; never less
      than before. */
  ghost predicate RisesTo(head: nat, confirmations: seq<nat>, checkpointed: bool, before: nat, now: nat) {
    && now >= before
    && if 34560000 <= head <= 34700000 then now == Max(before, head - 20)
       else if checkpointed then now == Max(before, head)
       else
         && (now > before ==> Confirmed(confirmations, now))
         && forall m: nat :: Confirmed(confirmations, m) ==> m <= now
  }

  lemma CandidateRises(head: nat, c: seq<nat>, checkpointed: bool, before: nat)
    requires c != []
    ensures RisesTo(head, c, checkpointed, before, Max(before, Candidate(head, c, checkpointed)))
  {
    var now := Max(before, Candidate(head, c, checkpointed));
    NthIsConfirmed(c, now);
    forall m: nat | Confirmed(c, m) ensures m <= Nth(c, Offset(|c|)) { NthIsConfirmed(c, m); }
  }

  /** Each block that is kept counts as its signer's confirmation, and makes irreversible exactly what it should. */
  lemma BlockRises(p: Progress, a: Arrival, maxUndo: nat)
    requires Expected(p, a) && Accepted(p, a, maxUndo)
    ensures var p' := AfterBlock(p, a, maxUndo);
      && p'.confirmed == p.confirmed[a.signer := p.head + 1]
      && RisesTo(p.head + 1, Confirmations(p'.confirmed, a.active), a.checkpointed, p.irreversible, p'.irreversible)
  {
    CandidateRises(p.head + 1, Confirmations(p.confirmed[a.signer := p.head + 1], a.active), a.checkpointed,
      p.irreversible);
  }

  /** Between blocks, `d` nested sessions for pending transactions are opened and ended; UndoSessions says
      how many committed records that leaves. */
  function AfterSessions(p: Progress, d: nat): Progress
    requires d <= p.limit
  {
    p.(records := UndoSessions.Remaining(p.records, p.limit, d))
  }

  /** The pending session and one transaction session inside it are harmless. */
  lemma TwoSessionsKeepDepth(p: Progress, d: nat)
    requires DeepEnough(p) && d <= 2 && d <= p.limit
    ensures DeepEnough(AfterSessions(p, d))
  {
  }

  /** Right after a block that made nothing irreversible, that is as deep as sessions may go: a third one,
      for a proposal executed inside a pending transaction, can cost the record of the irreversible block. */
  lemma SessionDepthIsTight(p: Progress, a: Arrival, maxUndo: nat, d: nat)
    requires Expected(p, a) && DeepEnough(p) && Accepted(p, a, maxUndo)
    requires var p' := AfterBlock(p, a, maxUndo);
      p'.irreversible == p.irreversible && d <= p'.limit && p'.irreversible < p'.head
    ensures DeepEnough(AfterSessions(AfterBlock(p, a, maxUndo), d)) <==> d <= 2
  {
    BlockKeepsDepth(p, a, maxUndo);
  }

  // ---------- whole runs ----------

  datatype Event = Block(a: Arrival) | Sessions(d: nat)

  predicate Possible(p: Progress, e: Event) {
    match e
    case Block(a) => Expected(p, a)
    case Sessions(d) => d <= 2 && d <= p.limit
  }

  function After(p: Progress, e: Event, maxUndo: nat): Progress
    requires Possible(p, e)
  {
    match e
    case Block(a) => AfterBlock(p, a, maxUndo)
    case Sessions(d) => AfterSessions(p, d)
  }

  ghost predicate IsRun(states: seq<Progress>, events: seq<Event>, maxUndo: nat) {
    && |states| == |events| + 1
    && forall i :: 0 <= i < |events| ==>
         Possible(states[i], events[i]) && states[i + 1] == After(states[i], events[i], maxUndo)
  }

  function Genesis(witnesses: set<WitnessId>): Progress {
    Progress(0, 0, map w | w in witnesses :: 0, 0, MIN_UNDO_HISTORY)
  }

  /** In every run from genesis the irreversible number never falls, and the undo records always reach
      back to the irreversible block. */
  lemma {:induction false} RunsKeepDepth(states: seq<Progress>, events: seq<Event>, maxUndo: nat,
      witnesses: set<WitnessId>)
    requires IsRun(states, events, maxUndo) && states[0] == Genesis(witnesses)
    ensures forall i :: 0 <= i < |states| ==>
      DeepEnough(states[i]) && states[i].records >= states[i].head - states[i].irreversible
    ensures forall i, j :: 0 <= i <= j < |states| ==> states[i].irreversible <= states[j].irreversible
    decreases |events|
  {
    if events != [] {
      var n := |events|;
      var before, last := states[..n], states[n - 1];
      RunsKeepDepth(before, events[..n - 1], maxUndo, witnesses);
      assert before[n - 1] == last && states[n] == After(last, events[n - 1], maxUndo);
      match events[n - 1] {
        case Block(a) => BlockKeepsDepth(last, a, maxUndo);
        case Sessions(d) => TwoSessionsKeepDepth(last, d);
      }
      forall i, j | 0 <= i <= j < |states| ensures states[i].irreversible <= states[j].irreversible {
        if j == n && i < n { assert before[i].irreversible <= before[n - 1].irreversible; }
        else if j < n { assert before[i].irreversible <= before[j].irreversible; }
      }
    }
  }

  // ---------- the code's own form ----------

  class IrreversibilityTracker {
    var head: nat
    var irreversible: nat
    var confirmed: map<WitnessId, nat>
    var records: nat
    var limit: nat

    ghost function AsProgress(): Progress reads this {
      Progress(head, irreversible, confirmed, records, limit)
    }

    constructor (witnesses: set<WitnessId>)
      ensures AsProgress() == Genesis(witnesses)
    {
      head, irreversible, confirmed, records, limit := 0, 0, map w | w in witnesses :: 0, 0, MIN_UNDO_HISTORY;
    }

    method StartSession()
      modifies this`records
      ensures records == 1 + if old(records) > limit then limit else old(records)
    {
      while records > limit
        invariant records <= old(records) && (records < old(records) ==> limit <= records)
      {
        records := records - 1;
      }
      records := records + 1;
    }

    /** One block in one session; on an exception the session undoes everything but the size limit. */
    method ApplyBlock(a: Arrival, maxUndo: nat) returns (ok: bool)
      requires Expected(AsProgress(), a) && DeepEnough(AsProgress())
      modifies this
      ensures AsProgress() == AfterBlock(old(AsProgress()), a, maxUndo)
      ensures DeepEnough(AsProgress())
      ensures ok == Accepted(old(AsProgress()), a, maxUndo)
    {
      BlockKeepsDepth(AsProgress(), a, maxUndo);
      StartSession();
      if a.verdict == FailsEarly {
        records := records - 1;
        return false;
      }
      head := head + 1;
      if !a.unchecked && head - irreversible >= maxUndo {
        head, records := head - 1, records - 1;
        return false;
      }
      limit := head - irreversible + 1;
      if a.verdict == FailsLate {
        head, records := head - 1, records - 1;
        return false;
      }
      confirmed := confirmed[a.signer := head];
      UpdateLastIrreversibleBlock(a);
      ok := true;
    }

    method UpdateLastIrreversibleBlock(a: Arrival)
      requires a.active != [] && forall i :: 0 <= i < |a.active| ==> a.active[i] in confirmed
      modifies this`irreversible
      ensures var c := Confirmations(confirmed, a.active);
        && irreversible == Max(old(irreversible), Candidate(head, c, a.checkpointed))
        && RisesTo(head, c, a.checkpointed, old(irreversible), irreversible)
    {
      var nums: seq<nat> := [];
      for i := 0 to |a.active|
        invariant nums == Confirmations(confirmed, a.active)[..i]
      {
        nums := nums + [confirmed[a.active[i]]];
      }
      assert nums == Confirmations(confirmed, a.active);
      var newIrreversible := Nth(nums, Offset(|nums|));
      if a.checkpointed {
        newIrreversible := head;
      }
      if InMaintainedRange(head) {
        newIrreversible := head - 20;
      }
      CandidateRises(head, nums, a.checkpointed, irreversible);
      if newIrreversible > irreversible {
        irreversible := newIrreversible;
      }
    }
  }
}
