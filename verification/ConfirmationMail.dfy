/**
 The daily allowance for confirmation mails within one window: counters for each workspace and each
 recipient, claimed before a mail and given back when it does not go out.
 */
module ConfirmationMail {
  import opened Wrappers
  import opened Sequences

  const PER_WORKSPACE: nat := 20
  const PER_RECIPIENT: nat := 5

  datatype Key = WorkspaceKey(workspace: int) | RecipientKey(mailbox: int)

  function LimitOf(key: Key): nat {
    if key.WorkspaceKey? then PER_WORKSPACE else PER_RECIPIENT
  }

  type Counters = map<Key, int>

  function Value(counters: Counters, key: Key): int {
    if key in counters then counters[key] else 0
  }

  /** `CLAIM_EVERY_ALLOWANCE` refuses at the first key that is used up. */
  predicate Refuses(counters: Counters, key: Key) {
    Value(counters, key) >= LimitOf(key)
  }

  function Increased(counters: Counters, keys: seq<Key>): Counters {
    if keys == [] then counters
    else
      var before := Increased(counters, Init(keys));
      before[Last(keys) := Value(before, Last(keys)) + 1]
  }

  function Decreased(counters: Counters, keys: seq<Key>): Counters {
    if keys == [] then counters
    else
      var before := Decreased(counters, Init(keys));
      if Last(keys) in before then before[Last(keys) := before[Last(keys)] - 1] else before
  }

  lemma {:induction false} IncreasedValue(counters: Counters, keys: seq<Key>, key: Key)
    requires Distinct(keys)
    ensures Value(Increased(counters, keys), key) == Value(counters, key) + if key in keys then 1 else 0
    ensures key in Increased(counters, keys) <==> key in counters || key in keys
  {
    if keys != [] {
      assert keys == Init(keys) + [Last(keys)];
      assert Last(keys) !in Init(keys);
      IncreasedValue(counters, Init(keys), key);
      IncreasedValue(counters, Init(keys), Last(keys));
    }
  }

  lemma {:induction false} DecreasedValue(counters: Counters, keys: seq<Key>, key: Key)
    requires Distinct(keys)
    ensures Value(Decreased(counters, keys), key) == Value(counters, key) - if key in keys && key in counters then 1 else 0
    ensures key in Decreased(counters, keys) <==> key in counters
  {
    if keys != [] {
      assert keys == Init(keys) + [Last(keys)];
      assert Last(keys) !in Init(keys);
      DecreasedValue(counters, Init(keys), key);
      DecreasedValue(counters, Init(keys), Last(keys));
    }
  }

  /** A refund undoes a claim: every counter has its value again. */
  lemma RefundUndoesClaim(counters: Counters, keys: seq<Key>, key: Key)
    requires Distinct(keys)
    ensures Value(Decreased(Increased(counters, keys), keys), key) == Value(counters, key)
  {
    IncreasedValue(counters, keys, key);
    DecreasedValue(Increased(counters, keys), keys, key);
  }

  /** The counters and the two scripts. */
  class Store {
    var counters: Counters

    constructor ()
      ensures counters == map[]
    {
      counters := map[];
    }

    /** Answers 0, or the position of the first key that is used up. */
    method ClaimEvery(keys: seq<Key>) returns (refused: nat)
      modifies this
      ensures refused == 0 <==> forall i :: 0 <= i < |keys| ==> !Refuses(old(counters), keys[i])
      ensures refused > 0 ==>
                refused <= |keys| && Refuses(old(counters), keys[refused - 1])
                && forall i :: 0 <= i < refused - 1 ==> !Refuses(old(counters), keys[i])
      ensures counters == if refused == 0 then Increased(old(counters), keys) else old(counters)
    {
      for i := 0 to |keys|
        invariant counters == old(counters)
        invariant forall k :: 0 <= k < i ==> !Refuses(counters, keys[k])
      {
        if Refuses(counters, keys[i]) {
          return i + 1;
        }
      }
      for i := 0 to |keys|
        invariant counters == Increased(old(counters), keys[..i])
      {
        assert Init(keys[..i + 1]) == keys[..i];
        counters := counters[keys[i] := Value(counters, keys[i]) + 1];
      }
      assert keys[..|keys|] == keys;
      refused := 0;
    }

    /** Counts every key down that is still stored, and stores no other. */
    method RefundEvery(keys: seq<Key>)
      modifies this
      ensures counters == Decreased(old(counters), keys)
      ensures Distinct(keys) ==> counters.Keys == old(counters).Keys
      ensures Distinct(keys) ==> forall key :: key in counters ==>
                counters[key] == old(counters)[key] - if key in keys then 1 else 0
    {
      for i := 0 to |keys|
        invariant counters == Decreased(old(counters), keys[..i])
      {
        assert Init(keys[..i + 1]) == keys[..i];
        if keys[i] in counters {
          counters := counters[keys[i] := counters[keys[i]] - 1];
        }
      }
      assert keys[..|keys|] == keys;
      if Distinct(keys) {
        forall key
          ensures key in counters <==> key in old(counters)
          ensures Value(counters, key)
               == Value(old(counters), key) - if key in keys && key in old(counters) then 1 else 0
        {
          DecreasedValue(old(counters), keys, key);
        }
      }
    }
  }

  /** How a script call ends for its caller: with an answer, without having run, or run without an answer. */
  datatype Reply = Answered | Unreached | ReplyLost

  // The refund closure

  /** What a claim's refund remembers, how often it reached the counters, and how often it did so unheard. */
  datatype Closure = Closure(given: bool, running: bool, waiters: nat, decrements: nat, unheard: nat)

  /** A call joins the running attempt or starts one; the callers of a settled attempt resume together. */
  datatype ClosureStep = Call | Settle(reply: Reply)

  function ClosureNext(c: Closure, step: ClosureStep): Closure {
    match step
    case Call => if c.given then c else c.(running := true, waiters := c.waiters + 1)
    case Settle(reply) =>
      if !c.running then c
      else Closure(reply.Answered?, false, 0, c.decrements + (if reply.Unreached? then 0 else 1),
                   c.unheard + if reply.ReplyLost? then 1 else 0)
  }

  function ClosureRun(c: Closure, steps: seq<ClosureStep>): Closure {
    if steps == [] then c else ClosureNext(ClosureRun(c, Init(steps)), Last(steps))
  }

  /**
   However its calls overlap and fail, a refund counts down exactly once when it says so, and
   otherwise only for calls that ran and whose reply was lost.
   */
  lemma {:induction false} RefundsOnce(steps: seq<ClosureStep>)
    ensures var c := ClosureRun(Closure(false, false, 0, 0, 0), steps);
            && c.decrements == c.unheard + (if c.given then 1 else 0)
            && (c.given ==> !c.running)
            && (c.running <==> c.waiters > 0)
  {
    if steps != [] {
      RefundsOnce(Init(steps));
    }
  }

  // Flights of mails

  /** Where one request for a confirmation mail stands. */
  datatype Phase =
    | Writing
    | Written
    | Committed
    | Asked
    | Marked
    | Ready
    | Unmarking
    | UnmarkingLost
    | Restoring
    | Refunding
    | Sent
    | Ended
    | ClaimLost
    | RefundLost
    | Stopped(holding: bool)

  datatype Flight = Flight(workspace: int, mailbox: int, phase: Phase)

  function KeysOf(flight: Flight): (keys: seq<Key>)
    ensures Distinct(keys)
  {
    [WorkspaceKey(flight.workspace), RecipientKey(flight.mailbox)]
  }

  datatype State = State(counters: Counters, flights: seq<Flight>)

  /** `Open` starts a create, update or resend; the others move flight `i`. */
  datatype Step =
    | Open(workspace: int, mailbox: int, resend: bool)
    | SkipMail(i: nat)
    | Claim(i: nat, reply: Reply)
    | Commit(i: nat, done: bool)
    | Reserve(i: nat, done: bool)
    | Send(i: nat, done: bool)
    | Restore(i: nat)
    | Refund(i: nat, answer: Reply)
    | Stop(i: nat)

  /** A flight that used up one of each allowance and has not given it back, whether it knows or not. */
  predicate Holds(flight: Flight) {
    match flight.phase
    case Written => true
    case Committed => true
    case Ready => true
    case Restoring => true
    case Refunding => true
    case Sent => true
    case UnmarkingLost => true
    case ClaimLost => true
    case RefundLost => true
    case Stopped(holding) => holding
    case _ => false
  }

  predicate InFlight(flight: Flight) {
    Holds(flight) && !flight.phase.Sent? && !Leaked(flight)
  }

  predicate Leaked(flight: Flight) {
    flight.phase in {UnmarkingLost, ClaimLost, RefundLost, Stopped(true)}
  }

  predicate Allowed(counters: Counters, flight: Flight) {
    !Refuses(counters, KeysOf(flight)[0]) && !Refuses(counters, KeysOf(flight)[1])
  }

  function Moved(s: State, i: nat, phase: Phase): State
    requires i < |s.flights|
  {
    s.(flights := s.flights[i := s.flights[i].(phase := phase)])
  }

  /**
   The claim of a written row or of a resend that marked its row. Without an answer it throws like a
   refusal, also when the script ran; then nobody is left to give the allowance back.
   */
  function AfterClaim(s: State, i: nat, reply: Reply, taken: Phase, refused: Phase, unheard: Phase): State
    requires i < |s.flights|
  {
    if reply.Unreached? || !Allowed(s.counters, s.flights[i]) then Moved(s, i, refused)
    else
      Moved(s, i, if reply.Answered? then taken else unheard)
        .(counters := Increased(s.counters, KeysOf(s.flights[i])))
  }

  /** Where a step that leaves the counters alone takes a flight; it stays where the step does not apply. */
  function Moves(flight: Flight, step: Step): Phase {
    var phase := flight.phase;
    match step
    case SkipMail(_) => if phase == Writing then Ended else phase
    case Commit(_, done) => if phase != Written then phase else if done then Committed else Refunding
    case Reserve(_, done) =>
      if phase == Committed then (if done then Ready else Refunding)
      else if phase == Asked then (if done then Marked else Ended)
      else phase
    case Send(_, done) => if phase != Ready then phase else if done then Sent else Restoring
    case Restore(_) =>
      if phase == Restoring then Refunding
      else if phase == Unmarking then Ended
      else if phase == UnmarkingLost then ClaimLost
      else phase
    case Refund(_, answer) => if phase == Refunding && answer.Unreached? then RefundLost else phase
    case Stop(_) =>
      if phase in {Sent, ClaimLost, RefundLost} || phase.Stopped? then phase else Stopped(Holds(flight))
    case _ => phase
  }

  function Refunded(s: State, i: nat): State
    requires i < |s.flights|
  {
    Moved(s, i, Ended).(counters := Decreased(s.counters, KeysOf(s.flights[i])))
  }

  function Opened(s: State, workspace: int, mailbox: int, resend: bool): State {
    s.(flights := s.flights + [Flight(workspace, mailbox, if resend then Asked else Writing)])
  }

  function Next(s: State, step: Step): State {
    if step.Open? then Opened(s, step.workspace, step.mailbox, step.resend)
    else if step.i >= |s.flights| then s
    else if step.Claim? && s.flights[step.i].phase == Writing then
      AfterClaim(s, step.i, step.reply, Written, Ended, ClaimLost)
    else if step.Claim? && s.flights[step.i].phase == Marked then
      AfterClaim(s, step.i, step.reply, Ready, Unmarking, UnmarkingLost)
    else if step.Refund? && !step.answer.Unreached? && s.flights[step.i].phase == Refunding then Refunded(s, step.i)
    else Moved(s, step.i, Moves(s.flights[step.i], step))
  }

  function Run(s: State, steps: seq<Step>): State {
    if steps == [] then s else Next(Run(s, Init(steps)), Last(steps))
  }

  predicate Uses(flight: Flight, key: Key) {
    key in KeysOf(flight)
  }

  datatype Group = Holding | Mailed | UnderWay | Lost

  predicate InGroup(group: Group, flight: Flight) {
    match group
    case Holding => Holds(flight)
    case Mailed => flight.phase.Sent?
    case UnderWay => InFlight(flight)
    case Lost => Leaked(flight)
  }

  /** How many flights of a group use a key. */
  function Tally(group: Group, flights: seq<Flight>, key: Key): nat {
    if flights == [] then 0
    else Tally(group, Init(flights), key) + if Uses(Last(flights), key) && InGroup(group, Last(flights)) then 1 else 0
  }

  function Share(flight: Flight, key: Key): nat {
    if Uses(flight, key) && Holds(flight) then 1 else 0
  }

  /** How many flights hold one of a key's allowance. */
  function Held(flights: seq<Flight>, key: Key): nat {
    Tally(Holding, flights, key)
  }

  lemma {:induction false} HeldMoves(flights: seq<Flight>, i: nat, flight: Flight, key: Key)
    requires i < |flights|
    ensures Held(flights[i := flight], key) == Held(flights, key) - Share(flights[i], key) + Share(flight, key)
  {
    if i == |flights| - 1 {
      assert Init(flights[i := flight]) == Init(flights);
    } else {
      assert Init(flights[i := flight]) == Init(flights)[i := flight];
      HeldMoves(Init(flights), i, flight, key);
    }
  }

  predicate Balanced(s: State, key: Key) {
    && Value(s.counters, key) == Held(s.flights, key)
    && Value(s.counters, key) <= LimitOf(key)
  }

  /** A counter that a flight still holds one of was counted up, so its refund finds it. */
  lemma {:induction false} HeldIsCounted(flights: seq<Flight>, i: nat, key: Key)
    requires i < |flights| && Share(flights[i], key) == 1
    ensures Held(flights, key) > 0
  {
    if i < |flights| - 1 {
      HeldIsCounted(Init(flights), i, key);
    }
  }

  lemma MoveStaysBalanced(s: State, i: nat, phase: Phase, key: Key)
    requires i < |s.flights| && Balanced(s, key)
    requires Holds(s.flights[i].(phase := phase)) == Holds(s.flights[i])
    ensures Balanced(Moved(s, i, phase), key)
  {
    HeldMoves(s.flights, i, s.flights[i].(phase := phase), key);
  }

  lemma ClaimStaysBalanced(s: State, i: nat, reply: Reply, taken: Phase, refused: Phase, unheard: Phase, key: Key)
    requires i < |s.flights| && Balanced(s, key) && !Holds(s.flights[i])
    requires Holds(s.flights[i].(phase := taken)) && Holds(s.flights[i].(phase := unheard))
    requires !Holds(s.flights[i].(phase := refused))
    ensures Balanced(AfterClaim(s, i, reply, taken, refused, unheard), key)
  {
    IncreasedValue(s.counters, KeysOf(s.flights[i]), key);
    HeldMoves(s.flights, i, s.flights[i].(phase := taken), key);
    HeldMoves(s.flights, i, s.flights[i].(phase := unheard), key);
    HeldMoves(s.flights, i, s.flights[i].(phase := refused), key);
  }

  lemma RefundStaysBalanced(s: State, i: nat, key: Key)
    requires i < |s.flights| && Balanced(s, key) && s.flights[i].phase == Refunding
    ensures Balanced(Refunded(s, i), key)
  {
    DecreasedValue(s.counters, KeysOf(s.flights[i]), key);
    HeldMoves(s.flights, i, s.flights[i].(phase := Ended), key);
    if Uses(s.flights[i], key) {
      HeldIsCounted(s.flights, i, key);
    }
  }

  lemma MovesKeepHolding(flight: Flight, step: Step)
    ensures Holds(flight.(phase := Moves(flight, step))) == Holds(flight)
  {
  }

  lemma OpenStaysBalanced(s: State, workspace: int, mailbox: int, resend: bool, key: Key)
    requires Balanced(s, key)
    ensures Balanced(Opened(s, workspace, mailbox, resend), key)
  {
    var flight := Flight(workspace, mailbox, if resend then Asked else Writing);
    HeldGrows(s.flights, flight, key);
  }

  lemma HeldGrows(flights: seq<Flight>, flight: Flight, key: Key)
    ensures Held(flights + [flight], key) == Held(flights, key) + Share(flight, key)
  {
    assert Init(flights + [flight]) == flights;
    assert Last(flights + [flight]) == flight;
  }

  lemma StepStaysBalanced(s: State, step: Step, key: Key)
    requires Balanced(s, key)
    ensures Balanced(Next(s, step), key)
  {
    if step.Open? {
      OpenStaysBalanced(s, step.workspace, step.mailbox, step.resend, key);
    } else if step.i < |s.flights| {
      var flight := s.flights[step.i];
      if step.Claim? && flight.phase == Writing {
        ClaimStaysBalanced(s, step.i, step.reply, Written, Ended, ClaimLost, key);
      } else if step.Claim? && flight.phase == Marked {
        ClaimStaysBalanced(s, step.i, step.reply, Ready, Unmarking, UnmarkingLost, key);
      } else if step.Refund? && !step.answer.Unreached? && flight.phase == Refunding {
        RefundStaysBalanced(s, step.i, key);
      } else {
        MovesKeepHolding(flight, step);
        MoveStaysBalanced(s, step.i, Moves(flight, step), key);
      }
    }
  }

  /**
   The allowance over whole runs of creates, updates and resends: each counter is the number of
   flights that hold one of it, so it never goes below zero, and never above its limit.
   */
  lemma {:induction false} EveryRunIsBalanced(steps: seq<Step>, key: Key)
    ensures Balanced(Run(State(map[], []), steps), key)
  {
    if steps == [] {
      assert Held([], key) == 0;
    } else {
      EveryRunIsBalanced(Init(steps), key);
      StepStaysBalanced(Run(State(map[], []), Init(steps)), Last(steps), key);
    }
  }

  lemma {:induction false} HeldSplits(flights: seq<Flight>, key: Key)
    ensures Held(flights, key)
         == Tally(Mailed, flights, key) + Tally(UnderWay, flights, key)
            + Tally(Lost, flights, key)
  {
    if flights != [] {
      HeldSplits(Init(flights), key);
    }
  }

  predicate NothingLost(flights: seq<Flight>) {
    forall i :: 0 <= i < |flights| ==> !Leaked(flights[i])
  }

  lemma {:induction false} NoneLeaked(flights: seq<Flight>, key: Key)
    requires NothingLost(flights)
    ensures Tally(Lost, flights, key) == 0
  {
    if flights != [] {
      assert forall i :: 0 <= i < |flights| - 1 ==> Init(flights)[i] == flights[i];
      NoneLeaked(Init(flights), key);
    }
  }

  /** When nothing stops or is lost on the way, a counter is the mails sent plus those under way. */
  lemma CounterIsMail(steps: seq<Step>, key: Key)
    requires NothingLost(Run(State(map[], []), steps).flights)
    ensures var s := Run(State(map[], []), steps);
            Value(s.counters, key) == Tally(Mailed, s.flights, key) + Tally(UnderWay, s.flights, key)
  {
    EveryRunIsBalanced(steps, key);
    var flights := Run(State(map[], []), steps).flights;
    HeldSplits(flights, key);
    NoneLeaked(flights, key);
  }

  // The way of one flight

  /** How a flight comes into a phase; `allowed` tells whether both counters are below their limits. */
  predicate Enters(before: Phase, step: Step, allowed: bool, after: Phase) {
    match after
    case Written => before.Writing? && step.Claim? && step.reply.Answered? && allowed
    case Committed => before.Written? && step.Commit? && step.done
    case Marked => before.Asked? && step.Reserve? && step.done
    case Ready =>
      || (before.Committed? && step.Reserve? && step.done)
      || (before.Marked? && step.Claim? && step.reply.Answered? && allowed)
    case Unmarking => before.Marked? && step.Claim? && (step.reply.Unreached? || !allowed)
    case UnmarkingLost => before.Marked? && step.Claim? && step.reply.ReplyLost? && allowed
    case Restoring => before.Ready? && step.Send? && !step.done
    case Refunding =>
      || (before.Written? && step.Commit? && !step.done)
      || (before.Committed? && step.Reserve? && !step.done)
      || (before.Restoring? && step.Restore?)
    case Sent => before.Ready? && step.Send? && step.done
    case Ended =>
      || (before.Writing? && (step.SkipMail? || (step.Claim? && (step.reply.Unreached? || !allowed))))
      || (before.Asked? && step.Reserve? && !step.done)
      || (before.Unmarking? && step.Restore?)
      || (before.Refunding? && step.Refund? && !step.answer.Unreached?)
    case ClaimLost =>
      || (before.Writing? && step.Claim? && step.reply.ReplyLost? && allowed)
      || (before.UnmarkingLost? && step.Restore?)
    case RefundLost => before.Refunding? && step.Refund? && step.answer.Unreached?
    case Stopped(holding) =>
      && step.Stop? && !(before.Sent? || before.ClaimLost? || before.RefundLost? || before.Stopped?)
      && holding == (before.Written? || before.Committed? || before.Ready? || before.Restoring? || before.Refunding?
                     || before.UnmarkingLost?)
    case _ => false
  }

  predicate BelowLimits(counters: Counters, flight: Flight) {
    Value(counters, WorkspaceKey(flight.workspace)) < 20 && Value(counters, RecipientKey(flight.mailbox)) < 5
  }

  lemma OtherFlightRests(s: State, step: Step, i: nat)
    requires i < |s.flights| && (step.Open? || step.i != i)
    ensures Next(s, step).flights[i] == s.flights[i]
  {
  }

  lemma OwnFlightEnters(s: State, step: Step, i: nat)
    requires i < |s.flights| && !step.Open? && step.i == i
    ensures var (flight, next) := (s.flights[i], Next(s, step).flights[i]);
            && next.workspace == flight.workspace && next.mailbox == flight.mailbox
            && (next.phase != flight.phase ==> Enters(flight.phase, step, BelowLimits(s.counters, flight), next.phase))
  {
  }

  lemma EnteredPhase(s: State, step: Step, i: nat, after: Phase)
    requires i < |s.flights| && !step.Open? && step.i == i
    requires Enters(s.flights[i].phase, step, BelowLimits(s.counters, s.flights[i]), after)
    ensures Next(s, step).flights[i].phase == after
  {
  }

  /**
   What each step makes of a flight: a mail goes out only behind an answered claim, its commit and its
   mark; what fails behind the claim is restored and refunded; and a step of another flight, or one that
   does not apply, leaves it.
   */
  lemma FlightMoves(s: State, step: Step, i: nat)
    requires i < |s.flights|
    ensures var (flight, next) := (s.flights[i], Next(s, step).flights[i]);
            && (step.Open? || step.i != i ==> next == flight)
            && (next != flight ==> Enters(flight.phase, step, BelowLimits(s.counters, flight), next.phase))
            && (!step.Open? && step.i == i ==>
                  forall after :: Enters(flight.phase, step, BelowLimits(s.counters, flight), after) ==> next.phase == after)
  {
    if step.Open? || step.i != i {
      OtherFlightRests(s, step, i);
    } else {
      OwnFlightEnters(s, step, i);
      forall after | Enters(s.flights[i].phase, step, BelowLimits(s.counters, s.flights[i]), after)
        ensures Next(s, step).flights[i].phase == after
      {
        EnteredPhase(s, step, i, after);
      }
    }
  }

  /** A create or an update starts with writing its row, a resend with reserving the one there is. */
  lemma FlightOpens(s: State, workspace: int, mailbox: int, resend: bool)
    ensures Next(s, Open(workspace, mailbox, resend))
         == s.(flights := s.flights + [Flight(workspace, mailbox, if resend then Asked else Writing)])
  {
  }

  // The limits

  /** A claim is taken exactly while the workspace has claimed fewer than twenty and the recipient fewer than five. */
  lemma ClaimedWithinLimits(s: State, i: nat, taken: Phase, refused: Phase, unheard: Phase)
    requires i < |s.flights| && taken != refused
    ensures var (flight, next) := (s.flights[i], AfterClaim(s, i, Answered, taken, refused, unheard));
            next.flights[i].phase == if Value(s.counters, WorkspaceKey(flight.workspace)) < 20
                                        && Value(s.counters, RecipientKey(flight.mailbox)) < 5
                                     then taken else refused
  {
  }

  /** Over every run at most twenty mails of a workspace and five to a recipient have gone out. */
  lemma MailsWithinLimits(steps: seq<Step>, workspace: int, mailbox: int)
    ensures var flights := Run(State(map[], []), steps).flights;
            && Tally(Mailed, flights, WorkspaceKey(workspace)) <= 20
            && Tally(Mailed, flights, RecipientKey(mailbox)) <= 5
  {
    var flights := Run(State(map[], []), steps).flights;
    EveryRunIsBalanced(steps, WorkspaceKey(workspace));
    EveryRunIsBalanced(steps, RecipientKey(mailbox));
    HeldSplits(flights, WorkspaceKey(workspace));
    HeldSplits(flights, RecipientKey(mailbox));
  }

  // One request when nothing else runs

  /** The columns of an alert that a confirmation reads and writes; `closed` when confirmed or unsubscribed. */
  datatype Row = Row(email: int, sentAt: Option<int>, closed: bool)

  datatype Outcome = MailSent | Changed | NotSent | Throttled

  /** What `reserve` asks of the stored row: that it is still the one that was read, and open. */
  predicate Reservable(row: Option<Row>, read: Row) {
    row.Some? && row.value.email == read.email && !row.value.closed && row.value.sentAt == read.sentAt
  }

  class Confirmations {
    var row: Option<Row>
    var counters: Counters

    constructor (stored: Option<Row>, spent: Counters)
      ensures row == stored && counters == spent
    {
      row, counters := stored, spent;
    }

    method Reserve(read: Row, sentAt: int) returns (reserved: bool)
      modifies this`row
      ensures reserved <==> Reservable(old(row), read)
      ensures row == if reserved then Some(old(row).value.(sentAt := Some(sentAt))) else old(row)
    {
      if row.None? || row.value.email != read.email || row.value.closed || row.value.sentAt != read.sentAt {
        return false;
      }
      row := Some(row.value.(sentAt := Some(sentAt)));
      reserved := true;
    }

    method Restore(read: Row, sentAt: int)
      modifies this`row
      ensures row == if old(row).Some? && old(row).value.sentAt == Some(sentAt)
                     then Some(old(row).value.(sentAt := read.sentAt)) else old(row)
    {
      if row.Some? && row.value.sentAt == Some(sentAt) {
        row := Some(row.value.(sentAt := read.sentAt));
      }
    }

    /** `deliver`: a mail that does not go out gives back the row's send time and the allowance. */
    method Deliver(read: Row, sentAt: int, keys: seq<Key>, sends: bool) returns (outcome: Outcome)
      requires row.Some? && row.value.sentAt == Some(sentAt)
      modifies this
      ensures outcome == if sends then MailSent else NotSent
      ensures sends ==> row == old(row) && counters == old(counters)
      ensures !sends ==> row == Some(old(row).value.(sentAt := read.sentAt))
      ensures !sends ==> counters == Decreased(old(counters), keys)
    {
      if sends {
        return MailSent;
      }
      Restore(read, sentAt);
      counters := Decreased(counters, keys);
      outcome := NotSent;
    }

    /** `issue`, behind a create or update that already claimed the allowance. */
    method Issue(read: Row, sentAt: int, keys: seq<Key>, sends: bool) returns (outcome: Outcome)
      requires Distinct(keys)
      modifies this
      ensures outcome == if !Reservable(old(row), read) then Changed else if sends then MailSent else NotSent
      ensures outcome.MailSent? ==>
                row == Some(old(row).value.(sentAt := Some(sentAt))) && counters == old(counters)
      ensures !outcome.MailSent? ==> row == old(row) && counters == Decreased(old(counters), keys)
    {
      var reserved := Reserve(read, sentAt);
      if !reserved {
        counters := Decreased(counters, keys);
        return Changed;
      }
      outcome := Deliver(read, sentAt, keys, sends);
    }

    /** `resend`: a mail goes out, marked and counted, or everything is as it was. */
    method Resend(read: Row, sentAt: int, keys: seq<Key>, sends: bool) returns (outcome: Outcome)
      requires Distinct(keys)
      modifies this
      ensures outcome == if !Reservable(old(row), read) then Changed
                         else if exists i :: 0 <= i < |keys| && Refuses(old(counters), keys[i]) then Throttled
                         else if sends then MailSent else NotSent
      ensures outcome.MailSent? ==>
                row == Some(old(row).value.(sentAt := Some(sentAt))) && counters == Increased(old(counters), keys)
      ensures !outcome.MailSent? ==>
                row == old(row) && forall key :: Value(counters, key) == Value(old(counters), key)
    {
      var reserved := Reserve(read, sentAt);
      if !reserved {
        return Changed;
      }
      if exists i :: 0 <= i < |keys| && Refuses(counters, keys[i]) {
        Restore(read, sentAt);
        return Throttled;
      }
      forall key
        ensures Value(Decreased(Increased(old(counters), keys), keys), key) == Value(old(counters), key)
      {
        RefundUndoesClaim(old(counters), keys, key);
      }
      counters := Increased(counters, keys);
      outcome := Deliver(read, sentAt, keys, sends);
    }
  }
}
