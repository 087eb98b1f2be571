/**
 Deleting workspaces after a grace period: requests, cancellations, billing, registrations and
 several erase workers on one database. Each step is one statement, or one part of the final
 transaction, which holds its locks until it ends; the steps interleave freely.
 */
module AccountErasure {
  import opened Wrappers

  type Id = int
  type Customer = int
  type Worker = int

  /** The workspace that holds the platform operator. */
  const OPERATOR: Id := 0

  /** A workspace's row, with the number of its user accounts. */
  datatype Workspace = Workspace(users: nat, dueAt: Option<int>, claimedAt: Option<int>, customer: Option<Customer>)

  type Workspaces = map<Id, Workspace>

  // The statements

  predicate IsDue(workspace: Workspace, now: int) {
    workspace.dueAt.Some? && workspace.dueAt.value <= now
  }

  function Unscheduled(workspace: Workspace): Workspace {
    workspace.(dueAt := None)
  }

  /** `withdraw`: no deletion scheduled, and no claim. */
  function Withdrawn(workspace: Workspace): Workspace {
    workspace.(dueAt := None, claimedAt := None)
  }

  function Unclaimed(workspace: Workspace): Workspace {
    workspace.(claimedAt := None)
  }

  function Put(workspaces: Workspaces, id: Id, workspace: Workspace): Workspaces {
    workspaces[id := workspace]
  }

  /** Some other workspace holds accounts, and this one holds the operator. */
  predicate LeavesAccountsWithoutOperator(workspaces: Workspaces, id: Id) {
    id == OPERATOR && exists other :: other in workspaces && other != OPERATOR && workspaces[other].users > 0
  }

  predicate NoAccounts(workspaces: Workspaces) {
    forall id :: id in workspaces ==> workspaces[id].users == 0
  }

  // The protocol

  /** Where an erase worker stands with one workspace. */
  datatype Phase =
    | Idle
    | Listed(id: Id)
    | Withdrawing(id: Id)
    | Checked(id: Id)
    | Claiming(id: Id)
    | Releasing(id: Id, customer: Option<Customer>)
    | Unclaiming(id: Id)
    | Released(id: Id, customer: Option<Customer>)
    | Begun(id: Id, customer: Option<Customer>)
    | Matched(id: Id, customer: Option<Customer>)
    | Counted(id: Id, customer: Option<Customer>)

  /** `stripe` tells whether billing is configured; `gone` holds the customers deleted there. */
  datatype State = State(workspaces: Workspaces, workers: map<Worker, Phase>, gone: set<Customer>, stripe: bool)

  datatype Step =
    | Register(own: bool, newId: Id)
    | AcceptInvite(id: Id)
    | RemoveMember(id: Id)
    | AssignCustomer(id: Id, customer: Option<Customer>)
    | Request(id: Id, dueAt: int)
    | Cancel(id: Id)
    | List(worker: Worker, id: Id)
    | Check(worker: Worker)
    | Withdraw(worker: Worker)
    | Claim(worker: Worker, now: int)
    | ReadCustomer(worker: Worker)
    | Release(worker: Worker, deleted: bool)
    | Unclaim(worker: Worker)
    | Begin(worker: Worker)
    | Match(worker: Worker)
    | Count(worker: Worker)
    | Commit(worker: Worker)
    | Stop(worker: Worker)

  function PhaseOf(s: State, worker: Worker): Phase {
    if worker in s.workers then s.workers[worker] else Idle
  }

  function Moved(s: State, worker: Worker, phase: Phase): State {
    s.(workers := s.workers[worker := phase])
  }

  predicate InTransaction(phase: Phase) {
    phase.Begun? || phase.Matched? || phase.Counted?
  }

  predicate HoldsRow(phase: Phase) {
    phase.Matched? || phase.Counted?
  }

  /** The registration lock is taken by the transaction that erases the operator's workspace. */
  predicate RegistrationHeld(s: State) {
    exists w :: w in s.workers && InTransaction(s.workers[w]) && s.workers[w].id == OPERATOR
  }

  predicate RowHeld(s: State, id: Id) {
    exists w :: w in s.workers && HoldsRow(s.workers[w]) && s.workers[w].id == id
  }

  /** A row that a statement can change now. */
  predicate Writable(s: State, id: Id) {
    id in s.workspaces && !RowHeld(s, id)
  }

  /** An account of its own workspace, or one in the operator's, which the first account of all always joins. */
  function Registered(s: State, own: bool, newId: Id): State {
    if own && !NoAccounts(s.workspaces) && newId !in s.workspaces && newId != OPERATOR then
      s.(workspaces := Put(s.workspaces, newId, Workspace(1, None, None, None)))
    else if OPERATOR in s.workspaces then
      var operator := s.workspaces[OPERATOR];
      s.(workspaces := Put(s.workspaces, OPERATOR, operator.(users := operator.users + 1)))
    else
      s.(workspaces := Put(s.workspaces, OPERATOR, Workspace(1, None, None, None)))
  }

  function Rewritten(s: State, id: Id, workspace: Workspace): State {
    s.(workspaces := Put(s.workspaces, id, workspace))
  }

  /** The call to the billing provider, skipped without a customer or without billing. */
  function AfterRelease(s: State, worker: Worker, id: Id, customer: Option<Customer>, deleted: bool): State {
    if customer.None? || !s.stripe then Moved(s, worker, Released(id, customer))
    else if deleted then Moved(s, worker, Released(id, customer)).(gone := s.gone + {customer.value})
    else Moved(s, worker, Unclaiming(id))
  }

  /** The transaction's check of its row, under lock from here on when it passes. */
  function AfterMatch(s: State, worker: Worker, id: Id, customer: Option<Customer>): State {
    if id in s.workspaces && s.workspaces[id].claimedAt.Some? && s.workspaces[id].customer == customer then
      Moved(s, worker, Matched(id, customer))
    else Moved(s, worker, Idle)
  }

  /** A step its party cannot make now, as one that waits for a lock, changes nothing. */
  function Next(s: State, step: Step): State {
    match step
    case Register(own, newId) => if RegistrationHeld(s) then s else Registered(s, own, newId)
    case AcceptInvite(id) =>
      if id !in s.workspaces then s
      else Rewritten(s, id, s.workspaces[id].(users := s.workspaces[id].users + 1))
    case RemoveMember(id) =>
      if id !in s.workspaces || s.workspaces[id].users < 2 then s
      else Rewritten(s, id, s.workspaces[id].(users := s.workspaces[id].users - 1))
    case AssignCustomer(id, customer) =>
      if !Writable(s, id) then s else Rewritten(s, id, s.workspaces[id].(customer := customer))
    case Request(id, dueAt) =>
      if !Writable(s, id) then s else Rewritten(s, id, s.workspaces[id].(dueAt := Some(dueAt)))
    case Cancel(id) =>
      if !Writable(s, id) || s.workspaces[id].claimedAt.Some? then s
      else Rewritten(s, id, Unscheduled(s.workspaces[id]))
    case List(worker, id) => if PhaseOf(s, worker).Idle? then Moved(s, worker, Listed(id)) else s
    case Check(worker) =>
      (match PhaseOf(s, worker)
       case Listed(id) =>
         Moved(s, worker, if LeavesAccountsWithoutOperator(s.workspaces, id) then Withdrawing(id) else Checked(id))
       case _ => s)
    case Withdraw(worker) =>
      (match PhaseOf(s, worker)
       case Withdrawing(id) =>
         if id !in s.workspaces then Moved(s, worker, Idle)
         else if RowHeld(s, id) then s
         else Moved(Rewritten(s, id, Withdrawn(s.workspaces[id])), worker, Idle)
       case _ => s)
    case Claim(worker, now) =>
      (match PhaseOf(s, worker)
       case Checked(id) =>
         if id !in s.workspaces then Moved(s, worker, Idle)
         else if RowHeld(s, id) then s
         else if !IsDue(s.workspaces[id], now) then Moved(s, worker, Idle)
         else Moved(Rewritten(s, id, s.workspaces[id].(claimedAt := Some(now))), worker, Claiming(id))
       case _ => s)
    case ReadCustomer(worker) =>
      (match PhaseOf(s, worker)
       case Claiming(id) =>
         Moved(s, worker, if id in s.workspaces then Releasing(id, s.workspaces[id].customer) else Idle)
       case _ => s)
    case Release(worker, deleted) =>
      (match PhaseOf(s, worker)
       case Releasing(id, customer) => AfterRelease(s, worker, id, customer, deleted)
       case _ => s)
    case Unclaim(worker) =>
      (match PhaseOf(s, worker)
       case Unclaiming(id) =>
         if id !in s.workspaces then Moved(s, worker, Idle)
         else if RowHeld(s, id) then s
         else Moved(Rewritten(s, id, Unclaimed(s.workspaces[id])), worker, Idle)
       case _ => s)
    case Begin(worker) =>
      (match PhaseOf(s, worker)
       case Released(id, customer) =>
         if id == OPERATOR && RegistrationHeld(s) then s else Moved(s, worker, Begun(id, customer))
       case _ => s)
    case Match(worker) =>
      (match PhaseOf(s, worker)
       case Begun(id, customer) => if RowHeld(s, id) then s else AfterMatch(s, worker, id, customer)
       case _ => s)
    case Count(worker) =>
      (match PhaseOf(s, worker)
       case Matched(id, customer) =>
         if id in s.workspaces && LeavesAccountsWithoutOperator(s.workspaces, id) then
           Moved(Rewritten(s, id, Withdrawn(s.workspaces[id])), worker, Idle)
         else Moved(s, worker, Counted(id, customer))
       case _ => s)
    case Commit(worker) =>
      (match PhaseOf(s, worker)
       case Counted(id, _) => Moved(s.(workspaces := s.workspaces - {id}), worker, Idle)
       case _ => s)
    case Stop(worker) => Moved(s, worker, Idle)
  }

  function Run(s: State, steps: seq<Step>): State
    decreases |steps|
  {
    if steps == [] then s else Run(Next(s, steps[0]), steps[1..])
  }

  // What every step keeps

  /** Only a scheduled deletion is claimed, and a workspace beside the operator's keeps its owner. */
  predicate RowSound(id: Id, workspace: Workspace) {
    && (workspace.claimedAt.Some? ==> workspace.dueAt.Some?)
    && (id != OPERATOR ==> workspace.users > 0)
  }

  predicate Paid(s: State, customer: Option<Customer>) {
    s.stripe && customer.Some? ==> customer.value in s.gone
  }

  predicate PhaseSound(s: State, phase: Phase) {
    && (phase.Released? || InTransaction(phase) ==> Paid(s, phase.customer))
    && (HoldsRow(phase) ==>
          phase.id in s.workspaces && s.workspaces[phase.id].claimedAt.Some?
          && s.workspaces[phase.id].customer == phase.customer)
    && (phase.Counted? && phase.id == OPERATOR ==> s.workspaces.Keys == {OPERATOR})
  }

  predicate Apart(one: Phase, other: Phase) {
    && !(InTransaction(one) && InTransaction(other) && one.id == OPERATOR && other.id == OPERATOR)
    && !(HoldsRow(one) && HoldsRow(other) && one.id == other.id)
  }

  predicate Exclusive(s: State) {
    forall v, w :: v in s.workers && w in s.workers && v != w ==> Apart(s.workers[v], s.workers[w])
  }

  predicate Sound(s: State) {
    && (forall id :: id in s.workspaces ==> RowSound(id, s.workspaces[id]))
    && (forall w :: w in s.workers ==> PhaseSound(s, s.workers[w]))
    && Exclusive(s)
  }

  lemma RowsStaySound(s: State, step: Step)
    requires Sound(s)
    ensures forall id :: id in Next(s, step).workspaces ==> RowSound(id, Next(s, step).workspaces[id])
  {
  }

  /** Which worker a step moves. */
  function Mover(step: Step): Option<Worker> {
    match step
    case Register(_, _) => None
    case AcceptInvite(_) => None
    case RemoveMember(_) => None
    case AssignCustomer(_, _) => None
    case Request(_, _) => None
    case Cancel(_) => None
    case _ => Some(step.worker)
  }

  lemma OthersStay(s: State, step: Step, w: Worker)
    requires Mover(step) != Some(w)
    ensures w in Next(s, step).workers <==> w in s.workers
    ensures w in s.workers ==> Next(s, step).workers[w] == s.workers[w]
  {
  }

  /** A row that a transaction holds is left alone by every other party, but for the number of its users. */
  lemma HeldRowStays(s: State, step: Step, w: Worker)
    requires Sound(s) && w in s.workers && HoldsRow(s.workers[w]) && Mover(step) != Some(w)
    ensures var id := s.workers[w].id;
            && id in Next(s, step).workspaces
            && Next(s, step).workspaces[id].claimedAt == s.workspaces[id].claimedAt
            && Next(s, step).workspaces[id].customer == s.workspaces[id].customer
  {
    var id := s.workers[w].id;
    assert RowHeld(s, id);
    if step.Count? || step.Commit? {
      var phase := PhaseOf(s, step.worker);
      if HoldsRow(phase) {
        assert Apart(s.workers[step.worker], s.workers[w]);
      }
    }
  }

  /** While the operator's transaction has counted no other accounts, no workspace is added. */
  lemma NobodyJoins(s: State, step: Step, w: Worker)
    requires Sound(s) && w in s.workers && s.workers[w].Counted? && s.workers[w].id == OPERATOR
    requires Mover(step) != Some(w)
    ensures Next(s, step).workspaces.Keys == {OPERATOR}
  {
    assert RegistrationHeld(s);
    HeldRowStays(s, step, w);
    assert OPERATOR in s.workspaces;
    assert forall id :: id in Next(s, step).workspaces ==> id in s.workspaces;
  }

  lemma GoneGrows(s: State, step: Step)
    ensures s.gone <= Next(s, step).gone && Next(s, step).stripe == s.stripe
  {
  }

  lemma OtherPhaseStays(s: State, step: Step, w: Worker)
    requires Sound(s) && w in s.workers && Mover(step) != Some(w)
    ensures PhaseSound(Next(s, step), s.workers[w])
  {
    GoneGrows(s, step);
    if HoldsRow(s.workers[w]) {
      HeldRowStays(s, step, w);
    }
    if s.workers[w].Counted? && s.workers[w].id == OPERATOR {
      NobodyJoins(s, step, w);
    }
  }

  /** Without accounts elsewhere there are no other workspaces, because each keeps its owner. */
  lemma NoOtherWorkspaces(s: State)
    requires Sound(s) && OPERATOR in s.workspaces && !LeavesAccountsWithoutOperator(s.workspaces, OPERATOR)
    ensures s.workspaces.Keys == {OPERATOR}
  {
    forall id | id in s.workspaces
      ensures id == OPERATOR
    {
      assert RowSound(id, s.workspaces[id]);
    }
  }

  lemma OwnPhase(s: State, step: Step, w: Worker)
    requires Sound(s) && Mover(step) == Some(w)
    ensures w in Next(s, step).workers ==> PhaseSound(Next(s, step), Next(s, step).workers[w])
  {
    if step.Count? && PhaseOf(s, w).Matched? {
      var id := PhaseOf(s, w).id;
      if id == OPERATOR && !LeavesAccountsWithoutOperator(s.workspaces, id) {
        NoOtherWorkspaces(s);
      }
    }
  }

  lemma StaysExclusive(s: State, step: Step)
    requires Sound(s)
    ensures Exclusive(Next(s, step))
  {
    var next := Next(s, step);
    forall v, w | v in next.workers && w in next.workers && v != w
      ensures Apart(next.workers[v], next.workers[w])
    {
      if Mover(step) == Some(v) {
        OthersStay(s, step, w);
        NewcomerApart(s, step, v, w);
      } else if Mover(step) == Some(w) {
        OthersStay(s, step, v);
        NewcomerApart(s, step, w, v);
      } else {
        OthersStay(s, step, v);
        OthersStay(s, step, w);
      }
    }
  }

  lemma NewcomerApart(s: State, step: Step, mover: Worker, w: Worker)
    requires Sound(s) && Mover(step) == Some(mover) && w in s.workers && w != mover
    requires mover in Next(s, step).workers
    ensures Apart(Next(s, step).workers[mover], s.workers[w]) && Apart(s.workers[w], Next(s, step).workers[mover])
  {
    var phase := PhaseOf(s, mover);
    if mover in s.workers {
      assert Apart(s.workers[mover], s.workers[w]);
    }
    if step.Begin? && phase.Released? && phase.id == OPERATOR && InTransaction(s.workers[w]) {
      assert s.workers[w].id == OPERATOR ==> RegistrationHeld(s);
    }
    if step.Match? && phase.Begun? && HoldsRow(s.workers[w]) {
      assert s.workers[w].id == phase.id ==> RowHeld(s, phase.id);
    }
  }

  lemma StepStaysSound(s: State, step: Step)
    requires Sound(s)
    ensures Sound(Next(s, step))
  {
    RowsStaySound(s, step);
    StaysExclusive(s, step);
    forall w | w in Next(s, step).workers
      ensures PhaseSound(Next(s, step), Next(s, step).workers[w])
    {
      if Mover(step) == Some(w) {
        OwnPhase(s, step, w);
      } else {
        OthersStay(s, step, w);
        OtherPhaseStays(s, step, w);
      }
    }
  }

  lemma {:induction false} EveryRunIsSound(s: State, steps: seq<Step>)
    requires Sound(s)
    ensures Sound(Run(s, steps))
    decreases |steps|
  {
    if steps != [] {
      StepStaysSound(s, steps[0]);
      EveryRunIsSound(Next(s, steps[0]), steps[1..]);
    }
  }

  /**
   Whatever interleaved before, a step that deletes a workspace deletes one whose deletion is
   scheduled and claimed, whose stored customer is the one this worker released (and billing no
   longer knows it), and never the operator's while any other workspace exists.
   */
  lemma DeletionsAreSafe(s: State, steps: seq<Step>, step: Step, id: Id)
    requires Sound(s)
    requires id in Run(s, steps).workspaces && id !in Next(Run(s, steps), step).workspaces
    ensures var before := Run(s, steps);
            var workspace := before.workspaces[id];
            && step.Commit? && PhaseOf(before, step.worker) == Counted(id, workspace.customer)
            && workspace.dueAt.Some? && workspace.claimedAt.Some?
            && (before.stripe && workspace.customer.Some? ==> workspace.customer.value in before.gone)
            && (id == OPERATOR ==> before.workspaces.Keys == {OPERATOR})
  {
    EveryRunIsSound(s, steps);
    var before := Run(s, steps);
    assert step.Commit?;
    assert PhaseSound(before, before.workers[step.worker]);
    assert RowSound(id, before.workspaces[id]);
  }

  predicate NoRequest(steps: seq<Step>, id: Id) {
    forall i :: 0 <= i < |steps| && steps[i].Request? ==> steps[i].id != id
  }

  lemma UnscheduledStays(s: State, step: Step, id: Id)
    requires Sound(s) && id in s.workspaces && s.workspaces[id].dueAt.None?
    requires step.Request? ==> step.id != id
    ensures id in Next(s, step).workspaces && Next(s, step).workspaces[id].dueAt.None?
  {
    assert RowSound(id, s.workspaces[id]);
    if step.Commit? && PhaseOf(s, step.worker).Counted? {
      assert PhaseSound(s, s.workers[step.worker]);
    }
  }

  /** A workspace without a scheduled deletion survives every run without a request for it. */
  lemma {:induction false} UnscheduledSurvives(s: State, steps: seq<Step>, id: Id)
    requires Sound(s) && id in s.workspaces && s.workspaces[id].dueAt.None? && NoRequest(steps, id)
    ensures id in Run(s, steps).workspaces && Run(s, steps).workspaces[id].dueAt.None?
    decreases |steps|
  {
    if steps != [] {
      UnscheduledStays(s, steps[0], id);
      StepStaysSound(s, steps[0]);
      UnscheduledSurvives(Next(s, steps[0]), steps[1..], id);
    }
  }

  predicate CancelSucceeds(s: State, id: Id) {
    Writable(s, id) && s.workspaces[id].claimedAt.None?
  }

  /**
   A cancellation that succeeds is final: whichever workers had already listed, claimed or
   released the workspace, it is not deleted until a new request is written.
   */
  lemma CancelledSurvives(s: State, before: seq<Step>, after: seq<Step>, id: Id)
    requires Sound(s) && CancelSucceeds(Run(s, before), id) && NoRequest(after, id)
    ensures id in Run(Next(Run(s, before), Cancel(id)), after).workspaces
  {
    EveryRunIsSound(s, before);
    var cancelled := Next(Run(s, before), Cancel(id));
    StepStaysSound(Run(s, before), Cancel(id));
    UnscheduledSurvives(cancelled, after, id);
  }

  // The grace period

  /** A claim is written exactly when the deletion is scheduled for now or earlier; else the worker lets go. */
  lemma ClaimIsDue(s: State, worker: Worker, id: Id, now: int)
    requires PhaseOf(s, worker) == Checked(id) && Writable(s, id)
    ensures var (next, dueAt) := (Next(s, Claim(worker, now)), s.workspaces[id].dueAt);
            if dueAt.Some? && dueAt.value <= now
            then PhaseOf(next, worker) == Claiming(id)
                 && next.workspaces == s.workspaces[id := s.workspaces[id].(claimedAt := Some(now))]
            else PhaseOf(next, worker) == Idle && next.workspaces == s.workspaces
  {
  }

  /** Only a claim at or after the scheduled time puts a claim on a row. */
  lemma OnlyDueIsClaimed(s: State, step: Step, id: Id)
    requires id in s.workspaces && id in Next(s, step).workspaces
    requires s.workspaces[id].claimedAt.None? && Next(s, step).workspaces[id].claimedAt.Some?
    ensures step.Claim? && PhaseOf(s, step.worker) == Checked(id)
    ensures s.workspaces[id].dueAt.Some? && s.workspaces[id].dueAt.value <= step.now
  {
  }

  /** Whenever the run claims the workspace, its deletion is not scheduled or scheduled for later. */
  predicate ClaimedEarly(s: State, steps: seq<Step>, id: Id)
    decreases |steps|
  {
    steps == [] || (EarlyClaim(s, steps[0], id) && ClaimedEarly(Next(s, steps[0]), steps[1..], id))
  }

  predicate EarlyClaim(s: State, step: Step, id: Id) {
    step.Claim? && PhaseOf(s, step.worker) == Checked(id) && id in s.workspaces && s.workspaces[id].dueAt.Some? ==>
      step.now < s.workspaces[id].dueAt.value
  }

  lemma UnclaimedStays(s: State, step: Step, id: Id)
    requires Sound(s) && id in s.workspaces && s.workspaces[id].claimedAt.None? && EarlyClaim(s, step, id)
    ensures id in Next(s, step).workspaces && Next(s, step).workspaces[id].claimedAt.None?
  {
    if step.Commit? && PhaseOf(s, step.worker).Counted? {
      assert PhaseSound(s, s.workers[step.worker]);
    }
    if id in Next(s, step).workspaces && Next(s, step).workspaces[id].claimedAt.Some? {
      OnlyDueIsClaimed(s, step, id);
    }
  }

  /**
   The grace period over whole runs: a workspace without a claim survives every run whose claims of it
   all come before the time its deletion is scheduled for, requests and cancellations included.
   */
  lemma {:induction false} GracePeriodHolds(s: State, steps: seq<Step>, id: Id)
    requires Sound(s) && id in s.workspaces && s.workspaces[id].claimedAt.None?
    requires ClaimedEarly(s, steps, id)
    ensures id in Run(s, steps).workspaces && Run(s, steps).workspaces[id].claimedAt.None?
    decreases |steps|
  {
    if steps != [] {
      UnclaimedStays(s, steps[0], id);
      StepStaysSound(s, steps[0]);
      GracePeriodHolds(Next(s, steps[0]), steps[1..], id);
    }
  }

  predicate ClaimsBefore(steps: seq<Step>, time: int) {
    forall i :: 0 <= i < |steps| && steps[i].Claim? ==> steps[i].now < time
  }

  /** A step that is no request for the workspace leaves its schedule or clears it. */
  lemma StepKeepsSchedule(s: State, step: Step, id: Id)
    requires id in s.workspaces && id in Next(s, step).workspaces && (step.Request? ==> step.id != id)
    ensures Next(s, step).workspaces[id].dueAt.Some? ==>
              Next(s, step).workspaces[id].dueAt == s.workspaces[id].dueAt
  {
  }

  predicate ScheduledFor(s: State, id: Id, dueAt: int) {
    id in s.workspaces && s.workspaces[id].claimedAt.None?
    && (s.workspaces[id].dueAt.Some? ==> s.workspaces[id].dueAt.value == dueAt)
  }

  lemma ScheduleStep(s: State, step: Step, id: Id, dueAt: int)
    requires Sound(s) && ScheduledFor(s, id, dueAt)
    requires (step.Request? ==> step.id != id) && (step.Claim? ==> step.now < dueAt)
    ensures EarlyClaim(s, step, id) && ScheduledFor(Next(s, step), id, dueAt)
  {
    UnclaimedStays(s, step, id);
    StepKeepsSchedule(s, step, id);
  }

  lemma {:induction false} ScheduleStays(s: State, steps: seq<Step>, id: Id, dueAt: int)
    requires Sound(s) && ScheduledFor(s, id, dueAt)
    requires NoRequest(steps, id) && ClaimsBefore(steps, dueAt)
    ensures ClaimedEarly(s, steps, id)
    decreases |steps|
  {
    if steps != [] {
      ScheduleStep(s, steps[0], id, dueAt);
      StepStaysSound(s, steps[0]);
      ScheduleStays(Next(s, steps[0]), steps[1..], id, dueAt);
    }
  }

  /** Until the time it is scheduled for, nothing erases a workspace but a new request can change that time. */
  lemma UntilDueSurvives(s: State, steps: seq<Step>, id: Id)
    requires Sound(s) && id in s.workspaces && s.workspaces[id].claimedAt.None? && s.workspaces[id].dueAt.Some?
    requires NoRequest(steps, id) && ClaimsBefore(steps, s.workspaces[id].dueAt.value)
    ensures id in Run(s, steps).workspaces
  {
    ScheduleStays(s, steps, id, s.workspaces[id].dueAt.value);
    GracePeriodHolds(s, steps, id);
  }

  /** Runs have a state to start from: a new instance, without workspaces or workers. */
  lemma FreshIsSound(stripe: bool)
    ensures Sound(State(map[], map[], {}, stripe))
  {
  }
}
