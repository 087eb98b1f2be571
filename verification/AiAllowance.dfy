/**
 The monthly allowance of AI calls: a call is reserved under a lock before the provider is asked,
 and settled afterwards as counted or released. Settling is one update that may be lost.
 */
module AiAllowance {
  import opened Wrappers
  import opened Sequences

  datatype Status = Reserved | Counted | Released

  /** A stored call; `late` tells that it was counted after it had been released. */
  datatype Call = Call(period: int, status: Status, late: bool)

  type Calls = seq<Call>

  predicate Spends(call: Call) {
    call.status.Reserved? || call.status.Counted?
  }

  datatype Share = Spending | OnTime | Late

  predicate Takes(share: Share, call: Call) {
    match share
    case Spending => Spends(call)
    case OnTime => Spends(call) && !call.late
    case Late => Spends(call) && call.late
  }

  function Tally(share: Share, calls: Calls, period: int): nat {
    if calls == [] then 0
    else Tally(share, Init(calls), period)
         + if Last(calls).period == period && Takes(share, Last(calls)) then 1 else 0
  }

  /** `spentIn`: the calls of a period that are reserved or counted. */
  function SpentIn(calls: Calls, period: int): nat {
    Tally(Spending, calls, period)
  }

  /** Without a limit every call is admitted. */
  predicate Admits(calls: Calls, period: int, limit: Option<nat>) {
    limit.Some? ==> SpentIn(calls, period) < limit.value
  }

  /** `settle`: only what is not counted yet can be counted, and only a reservation released. */
  function Settled(call: Call, counts: bool): Call {
    if counts then
      (if call.status.Counted? then call
       else Call(call.period, Counted, call.late || call.status.Released?))
    else if call.status.Reserved? then Call(call.period, Released, call.late)
    else call
  }

  // The protocol

  datatype Step =
    | Reserve(period: int)
    | Settle(i: nat, counts: bool, lost: bool)

  function Next(calls: Calls, step: Step, limit: Option<nat>): Calls {
    match step
    case Reserve(period) => if Admits(calls, period, limit) then calls + [Call(period, Reserved, false)] else calls
    case Settle(i, counts, lost) => if lost || i >= |calls| then calls else calls[i := Settled(calls[i], counts)]
  }

  function Run(calls: Calls, steps: seq<Step>, limit: Option<nat>): Calls {
    if steps == [] then calls else Next(Run(calls, Init(steps), limit), Last(steps), limit)
  }

  lemma {:induction false} TallyGrows(share: Share, calls: Calls, call: Call, period: int)
    ensures Tally(share, calls + [call], period)
         == Tally(share, calls, period) + if call.period == period && Takes(share, call) then 1 else 0
  {
    assert Init(calls + [call]) == calls && Last(calls + [call]) == call;
  }

  lemma {:induction false} TallyUpdates(share: Share, calls: Calls, i: nat, call: Call, period: int)
    requires i < |calls| && call.period == calls[i].period
    ensures Tally(share, calls[i := call], period)
         == Tally(share, calls, period)
            + (if call.period == period && Takes(share, call) then 1 else 0)
            - (if call.period == period && Takes(share, calls[i]) then 1 else 0)
  {
    if i == |calls| - 1 {
      assert Init(calls[i := call]) == Init(calls);
    } else {
      assert Init(calls[i := call]) == Init(calls)[i := call];
      TallyUpdates(share, Init(calls), i, call, period);
    }
  }

  lemma {:induction false} TallySplits(calls: Calls, period: int)
    ensures SpentIn(calls, period) == Tally(OnTime, calls, period) + Tally(Late, calls, period)
  {
    if calls != [] {
      TallySplits(Init(calls), period);
    }
  }

  /** A settled call keeps its period, and a late count is the only way to spend again. */
  lemma SettledKeeps(call: Call, counts: bool)
    ensures Settled(call, counts).period == call.period
    ensures Takes(OnTime, Settled(call, counts)) ==> Takes(OnTime, call)
  {
  }

  lemma StepStaysWithin(calls: Calls, step: Step, limit: Option<nat>, period: int)
    requires limit.Some? ==> Tally(OnTime, calls, period) <= limit.value
    ensures limit.Some? ==> Tally(OnTime, Next(calls, step, limit), period) <= limit.value
  {
    match step
    case Reserve(p) =>
      TallyGrows(OnTime, calls, Call(p, Reserved, false), period);
      TallySplits(calls, period);
    case Settle(i, counts, lost) =>
      if !lost && i < |calls| {
        SettledKeeps(calls[i], counts);
        TallyUpdates(OnTime, calls, i, Settled(calls[i], counts), period);
      }
  }

  /**
   The allowance over whole runs, for a fixed limit: the calls of a period that spend are at most
   the limit plus those counted after their release; without such late counts, at most the limit.
   */
  lemma {:induction false} AllowanceHolds(steps: seq<Step>, limit: nat, period: int)
    ensures SpentIn(Run([], steps, Some(limit)), period)
         <= limit + Tally(Late, Run([], steps, Some(limit)), period)
  {
    OnTimeWithin(steps, limit, period);
    TallySplits(Run([], steps, Some(limit)), period);
  }

  lemma {:induction false} OnTimeWithin(steps: seq<Step>, limit: nat, period: int)
    ensures Tally(OnTime, Run([], steps, Some(limit)), period) <= limit
  {
    if steps != [] {
      OnTimeWithin(Init(steps), limit, period);
      StepStaysWithin(Run([], Init(steps), Some(limit)), Last(steps), Some(limit), period);
    }
  }

  /** Counting a call of a full period that had been released: the update arrives after all. */
  predicate CountsLate(calls: Calls, step: Step, limit: nat, period: int) {
    && step.Settle? && step.counts && !step.lost
    && step.i < |calls| && calls[step.i].status.Released? && calls[step.i].period == period
    && SpentIn(calls, period) == limit
  }

  /** Exactly these steps pass the limit of a period that keeps it. */
  lemma OnlyLateCountsPass(calls: Calls, step: Step, limit: nat, period: int)
    requires SpentIn(calls, period) <= limit
    ensures SpentIn(Next(calls, step, Some(limit)), period) > limit <==> CountsLate(calls, step, limit, period)
  {
    match step
    case Reserve(p) => TallyGrows(Spending, calls, Call(p, Reserved, false), period);
    case Settle(i, counts, lost) =>
      if !lost && i < |calls| {
        TallyUpdates(Spending, calls, i, Settled(calls[i], counts), period);
      }
  }

  predicate EverPasses(steps: seq<Step>, limit: nat, period: int) {
    exists n :: 0 <= n <= |steps| && SpentIn(Run([], steps[..n], Some(limit)), period) > limit
  }

  predicate CountsLateAt(steps: seq<Step>, n: nat, limit: nat, period: int)
    requires n < |steps|
  {
    CountsLate(Run([], steps[..n], Some(limit)), steps[n], limit, period)
  }

  /** A run passes the limit of a period at some moment if and only if it counts late in it, when full, at some moment. */
  lemma {:induction false} AllowancePassedExactly(steps: seq<Step>, limit: nat, period: int)
    ensures EverPasses(steps, limit, period) <==>
            exists n :: 0 <= n < |steps| && CountsLateAt(steps, n, limit, period)
  {
    if n :| 0 <= n < |steps| && CountsLateAt(steps, n, limit, period) {
      NextOfRun(steps, n, limit);
      OnlyLateCountsPass(Run([], steps[..n], Some(limit)), steps[n], limit, period);
      assert SpentIn(Run([], steps[..n + 1], Some(limit)), period) > limit;
    }
    if n :| 0 <= n <= |steps| && SpentIn(Run([], steps[..n], Some(limit)), period) > limit {
      var m := FirstLateCount(steps, n, limit, period);
      assert CountsLateAt(steps, m, limit, period);
    }
  }

  lemma NextOfRun(steps: seq<Step>, n: nat, limit: nat)
    requires n < |steps|
    ensures Run([], steps[..n + 1], Some(limit)) == Next(Run([], steps[..n], Some(limit)), steps[n], Some(limit))
  {
    assert Init(steps[..n + 1]) == steps[..n] && Last(steps[..n + 1]) == steps[n];
  }

  lemma {:induction false} FirstLateCount(steps: seq<Step>, n: nat, limit: nat, period: int) returns (m: nat)
    requires n <= |steps| && SpentIn(Run([], steps[..n], Some(limit)), period) > limit
    ensures m < n && CountsLateAt(steps, m, limit, period)
    decreases n
  {
    assert n > 0;
    NextOfRun(steps, n - 1, limit);
    var before := Run([], steps[..n - 1], Some(limit));
    if SpentIn(before, period) > limit {
      m := FirstLateCount(steps, n - 1, limit, period);
    } else {
      OnlyLateCountsPass(before, steps[n - 1], limit, period);
      m := n - 1;
    }
  }

  /** Counted is final, and a call never leaves the record or changes its period. */
  lemma {:induction false} CountedIsFinal(calls: Calls, steps: seq<Step>, limit: Option<nat>, i: nat)
    requires i < |calls|
    ensures var after := Run(calls, steps, limit);
            && i < |after| && after[i].period == calls[i].period
            && (calls[i].status.Counted? ==> after[i] == calls[i])
  {
    if steps != [] {
      CountedIsFinal(calls, Init(steps), limit, i);
    }
  }

  /** The late counts belong in the bound: one of them is enough to pass the limit. */
  lemma LateCountPassesLimit()
    ensures var steps := [Reserve(1), Settle(0, false, false), Reserve(1), Settle(0, true, false)];
            SpentIn(Run([], steps, Some(1)), 1) == 2
  {
    var first := Call(1, Reserved, false);
    assert Init([first]) == [];
    var released := Call(1, Released, false);
    assert Init([released]) == [];
    var two := [released, first];
    assert Init(two) == [released];
    var counted := Call(1, Counted, true);
    var late := [counted, first];
    TallyGrows(Spending, [], counted, 1);
    TallyGrows(Spending, [counted], first, 1);
    assert [] + [counted] == [counted] && [counted] + [first] == late;
    var r1, r2, r3, r4 := Reserve(1), Settle(0, false, false), Reserve(1), Settle(0, true, false);
    assert Init([r1, r2, r3, r4]) == [r1, r2, r3] && Init([r1, r2, r3]) == [r1, r2];
    assert Init([r1, r2]) == [r1] && Init([r1]) == [];
    assert Run([], [r1], Some(1)) == [first];
    assert Run([], [r1, r2], Some(1)) == [released];
    assert Run([], [r1, r2, r3], Some(1)) == two;
    assert Run([], [r1, r2, r3, r4], Some(1)) == late;
  }

  // One call when nothing else runs

  /** How the provider answers. */
  datatype Reply = Completed | Unusable | Failed

  datatype Spent = Refused | Done(reply: Reply)

  class Gateway {
    var calls: Calls
    const limit: Option<nat>

    constructor (allowance: Option<nat>)
      ensures calls == [] && limit == allowance
    {
      calls, limit := [], allowance;
    }

    method ReserveCall(period: int) returns (id: Option<nat>)
      modifies this
      ensures id.Some? <==> Admits(old(calls), period, limit)
      ensures id.Some? ==> id.value == |old(calls)| && calls == old(calls) + [Call(period, Reserved, false)]
      ensures id.None? ==> calls == old(calls)
    {
      if limit.Some? && SpentIn(calls, period) >= limit.value {
        return None;
      }
      id := Some(|calls|);
      calls := calls + [Call(period, Reserved, false)];
    }

    method SettleCall(id: nat, counts: bool)
      requires id < |calls|
      modifies this
      ensures calls == old(calls)[id := Settled(old(calls)[id], counts)]
    {
      calls := calls[id := Settled(calls[id], counts)];
    }

    /** `charge`: an answer counts the call, usable or not; a failure leaves it to be released. */
    method Charge(id: nat, reply: Reply)
      requires id < |calls|
      modifies this
      ensures calls == if reply.Failed? then old(calls) else old(calls)[id := Settled(old(calls)[id], true)]
    {
      match reply
      case Completed => SettleCall(id, true);
      case Unusable => SettleCall(id, true);
      case Failed =>
    }

    /** `spend`: a call that fails costs nothing, one that is answered costs one, a refused one is not made. */
    method Spend(period: int, reply: Reply) returns (spent: Spent)
      modifies this
      ensures spent.Refused? <==> !Admits(old(calls), period, limit)
      ensures spent.Refused? ==> calls == old(calls)
      ensures spent.Done? ==>
                calls == old(calls) + [Call(period, if reply.Failed? then Released else Counted, false)]
      ensures SpentIn(calls, period)
           == SpentIn(old(calls), period) + if spent.Done? && !reply.Failed? then 1 else 0
    {
      var id := ReserveCall(period);
      if id.None? {
        return Refused;
      }
      Charge(id.value, reply);
      if reply.Failed? {
        SettleCall(id.value, false);
      }
      TallyGrows(Spending, old(calls), Last(calls), period);
      assert calls == old(calls) + [Last(calls)];
      spent := Done(reply);
    }
  }
}
