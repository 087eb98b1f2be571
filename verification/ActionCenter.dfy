/**
 The whole Action Center: generator runs that plan from a read and write later, user updates,
 bulk updates and undo, in any interleaving.
 */
module ActionCenter {
  import opened Wrappers
  import opened ActionLifecycle
  import opened ActionEvents
  import opened ActionTransitions
  import opened ActionWrites

  /** An action's fingerprint, unique in its workspace. */
  type Id = int

  type Items = map<Id, Item>

  datatype Step = Step(id: Id, plan: Plan)

  function Lookup(items: Items, id: Id): Option<Item> {
    if id in items then Some(items[id]) else None
  }

  /** The writes of one run, in one transaction: none of them stays when one fails on a duplicate. */
  function ApplyAll(items: Items, steps: seq<Step>): Option<Items>
    decreases |steps|
  {
    if steps == [] then Some(items)
    else
      match ApplyPlan(Lookup(items, steps[0].id), steps[0].plan)
      case Applied(item) => ApplyAll(items[steps[0].id := item], steps[1..])
      case Skipped => ApplyAll(items, steps[1..])
      case Duplicate => None
  }

  /** A row that a user asks for, and the time at which its change is made. */
  datatype Ask = Ask(id: Id, now: int)

  /**
   One user's change applied to several rows, each of which a query found once; a conflict skips its
   row, a bad request undoes them all.
   */
  function UpdateAll(items: Items, asks: seq<Ask>, body: Body, user: int, maxDays: int): Option<Items>
    decreases |asks|
  {
    if asks == [] then Some(items)
    else if asks[0].id !in items then UpdateAll(items, asks[1..], body, user, maxDays)
    else
      match Transition(items[asks[0].id], body, user, asks[0].now, maxDays)
      case Accepted(item) => UpdateAll(items[asks[0].id := item], asks[1..], body, user, maxDays)
      case Conflict => UpdateAll(items, asks[1..], body, user, maxDays)
      case BadRequest => None
  }

  ghost predicate AllExplained(items: Items) {
    forall id :: id in items ==> Explained(items[id])
  }

  /**
   What an accepted change does to a row: it has the status that was asked for, and the log lost
   its newest event to an undo, or has the user's event last, or stayed as it was.
   */
  predicate ChangedBy(before: Item, after: Item, body: Body, user: int, now: int) {
    && after.row.status == body.status
    && (body.revert ==> before.log != [] && after.log == Before(before.log))
    && (!body.revert && !Records(before, body) ==> after.log == before.log)
    && (Records(before, body) ==> |after.log| == |before.log| + 1)
    && (Records(before, body) && Timely(before.log, now) ==>
          && Before(after.log) == before.log
          && Latest(after.log).actor == User(user)
          && Latest(after.log).occurredAt == now
          && Latest(after.log).status == body.status)
  }

  lemma AcceptedChange(item: Item, body: Body, user: int, now: int, maxDays: int)
    requires Transition(item, body, user, now, maxDays).Accepted?
    ensures ChangedBy(item, Transition(item, body, user, now, maxDays).item, body, user, now)
  {
    if Records(item, body) && Timely(item.log, now) {
      var kind := TransitionEvent(item.row.status, body.status).value;
      RecordTimely(item.log, Event(kind, User(user), body.status, item.row.priority, item.row.impact,
                                   body.snoozedUntil, body.reason, now));
    }
  }

  /** The stored actions, and what the methods of the service do to them. */
  class ActionStore {
    var items: Items

    constructor ()
      ensures items == map[]
    {
      items := map[];
    }

    /**
     `update`: one row under its lock. A missing row is reported and a refusal changes nothing; an
     accepted change touches no other row, and every row is still the replay of its log exactly
     when the change records nothing or its time is not behind that row's newest event.
     */
    method Update(id: Id, body: Body, user: int, now: int, maxDays: int) returns (answer: Option<Answer>)
      modifies this
      ensures answer.None? <==> id !in old(items)
      ensures answer.Some? ==> answer.value == Transition(old(items)[id], body, user, now, maxDays)
      ensures !(answer.Some? && answer.value.Accepted?) ==> items == old(items)
      ensures items.Keys == old(items).Keys
      ensures forall other :: other in items && other != id ==> items[other] == old(items)[other]
      ensures answer.Some? && answer.value.Accepted? ==>
                items[id] == answer.value.item && ChangedBy(old(items)[id], items[id], body, user, now)
      ensures AllExplained(old(items)) && answer.Some? && answer.value.Accepted? ==>
                (AllExplained(items) <==> !Records(old(items)[id], body) || Timely(old(items)[id].log, now))
    {
      if id !in items {
        return None;
      }
      ghost var before := items;
      var outcome := Transition(items[id], body, user, now, maxDays);
      if outcome.Accepted? {
        items := items[id := outcome.item];
        AcceptedChange(before[id], body, user, now, maxDays);
        OneChangeExplained(before, id, body, user, now, maxDays);
      }
      answer := Some(outcome);
    }

    /** `bulkUpdate` and `applyMany`: rows, conflicts, and a transaction that a bad request rolls back. */
    method BulkUpdate(asks: seq<Ask>, body: Body, user: int, maxDays: int)
      returns (done: bool, rows: seq<Id>, conflicts: seq<Id>)
      modifies this
      ensures done <==> UpdateAll(old(items), asks, body, user, maxDays).Some?
      ensures items == UpdateAll(old(items), asks, body, user, maxDays).GetOr(old(items))
      ensures done ==> rows == Answered(old(items), asks, body, user, maxDays, true)
      ensures done ==> conflicts == Answered(old(items), asks, body, user, maxDays, false)
      ensures AllExplained(old(items)) && TimelyChanges(old(items), asks, body, user, maxDays) ==> AllExplained(items)
    {
      var found := items;
      done, rows, conflicts := true, [], [];
      for i := 0 to |asks|
        invariant UpdateAll(items, asks[i..], body, user, maxDays) == UpdateAll(found, asks, body, user, maxDays)
        invariant rows + Answered(items, asks[i..], body, user, maxDays, true)
               == Answered(found, asks, body, user, maxDays, true)
        invariant conflicts + Answered(items, asks[i..], body, user, maxDays, false)
               == Answered(found, asks, body, user, maxDays, false)
      {
        var ask := asks[i];
        assert asks[i..][0] == ask && asks[i..][1..] == asks[i + 1..];
        if ask.id in items {
          match Transition(items[ask.id], body, user, ask.now, maxDays)
          case Accepted(item) =>
            items := items[ask.id := item];
            rows := rows + [ask.id];
          case Conflict =>
            conflicts := conflicts + [ask.id];
          case BadRequest =>
            items := found;
            done := false;
            return;
        }
      }
      TimelyChangesKeep(found, asks, body, user, maxDays);
    }

    /** `applySteps`: the run's writes in one transaction, and which of them took effect. */
    method ApplySteps(steps: seq<Step>) returns (done: bool, applied: seq<Step>)
      modifies this
      ensures done <==> ApplyAll(old(items), steps).Some?
      ensures items == ApplyAll(old(items), steps).GetOr(old(items))
      ensures done ==> applied == Effective(old(items), steps)
      ensures AllExplained(old(items)) && AllFromSoundReads(steps) && TimelyWrites(old(items), steps) ==>
                AllExplained(items)
    {
      var before := items;
      done, applied := true, [];
      for i := 0 to |steps|
        invariant ApplyAll(items, steps[i..]) == ApplyAll(before, steps)
        invariant ApplyAll(before, steps).Some? ==>
                    applied + Effective(items, steps[i..]) == Effective(before, steps)
      {
        assert steps[i..][0] == steps[i] && steps[i..][1..] == steps[i + 1..];
        match ApplyPlan(Lookup(items, steps[i].id), steps[i].plan)
        case Applied(item) =>
          items := items[steps[i].id := item];
          applied := applied + [steps[i]];
        case Skipped =>
        case Duplicate =>
          items := before;
          done := false;
          return;
      }
      TimelyWritesKeep(before, steps);
    }
  }

  /** The asked rows that were updated, or the ones in conflict, in the order they were asked. */
  function Answered(items: Items, asks: seq<Ask>, body: Body, user: int, maxDays: int, accepted: bool): seq<Id>
    decreases |asks|
  {
    if asks == [] then []
    else if asks[0].id !in items then Answered(items, asks[1..], body, user, maxDays, accepted)
    else
      match Transition(items[asks[0].id], body, user, asks[0].now, maxDays)
      case Accepted(item) =>
        (if accepted then [asks[0].id] else [])
        + Answered(items[asks[0].id := item], asks[1..], body, user, maxDays, accepted)
      case Conflict =>
        (if accepted then [] else [asks[0].id]) + Answered(items, asks[1..], body, user, maxDays, accepted)
      case BadRequest => Answered(items, asks[1..], body, user, maxDays, accepted)
  }

  /** The steps of a run whose guard held. */
  function Effective(items: Items, steps: seq<Step>): seq<Step>
    decreases |steps|
  {
    if steps == [] then []
    else
      match ApplyPlan(Lookup(items, steps[0].id), steps[0].plan)
      case Applied(item) => [steps[0]] + Effective(items[steps[0].id := item], steps[1..])
      case _ => Effective(items, steps[1..])
  }

  /** Every action is explained by its log, and every pending plan was read from such an action. */
  datatype World = World(items: Items, plans: set<Step>)

  ghost predicate Sound(world: World) {
    && AllExplained(world.items)
    && (forall s :: s in world.plans ==> FromSoundRead(s.plan))
  }

  predicate AllFromSoundReads(steps: seq<Step>) {
    forall s :: s in steps ==> FromSoundRead(s.plan)
  }

  predicate FromSoundRead(plan: Plan) {
    HasWrite(plan) && (plan.read.None? ==> plan.fired) && (plan.read.Some? ==> Shaped(LifeOf(plan.read.value)))
  }

  /** What can happen next: a run plans one row, a run writes, a user changes rows. */
  datatype Action =
    | Read(id: Id, fired: bool, priority: int, impact: int, now: int)
    | Write(steps: seq<Step>)
    | Change(asks: seq<Ask>, body: Body, user: int, maxDays: int)

  function Next(world: World, action: Action): World {
    match action
    case Read(id, fired, priority, impact, now) =>
      var read := if id in world.items then Some(world.items[id].row) else None;
      var plan := Plan(read, fired, priority, impact, now);
      if HasWrite(plan) then world.(plans := world.plans + {Step(id, plan)}) else world
    case Write(steps) => world.(items := ApplyAll(world.items, steps).GetOr(world.items))
    case Change(asks, body, user, maxDays) =>
      world.(items := UpdateAll(world.items, asks, body, user, maxDays).GetOr(world.items))
  }

  /** A run writes only what it planned. */
  predicate Enabled(world: World, action: Action) {
    action.Write? ==> forall s :: s in action.steps ==> s in world.plans
  }

  /** Every write that records an event does so with a clock not behind that action's newest event. */
  predicate TimelyWrites(items: Items, steps: seq<Step>)
    decreases |steps|
  {
    steps == [] ||
    match ApplyPlan(Lookup(items, steps[0].id), steps[0].plan)
    case Applied(item) =>
      && (steps[0].id in items && RecordsEvent(steps[0].plan) ==>
            Timely(items[steps[0].id].log, steps[0].plan.now))
      && TimelyWrites(items[steps[0].id := item], steps[1..])
    case Skipped => TimelyWrites(items, steps[1..])
    case Duplicate => true
  }

  /** The same of a user's changes. */
  predicate TimelyChanges(items: Items, asks: seq<Ask>, body: Body, user: int, maxDays: int)
    decreases |asks|
  {
    asks == [] ||
    if asks[0].id !in items then TimelyChanges(items, asks[1..], body, user, maxDays)
    else
      match Transition(items[asks[0].id], body, user, asks[0].now, maxDays)
      case Accepted(item) =>
        && (Records(items[asks[0].id], body) ==> Timely(items[asks[0].id].log, asks[0].now))
        && TimelyChanges(items[asks[0].id := item], asks[1..], body, user, maxDays)
      case Conflict => TimelyChanges(items, asks[1..], body, user, maxDays)
      case BadRequest => true
  }

  predicate TimelyAction(world: World, action: Action) {
    match action
    case Read(_, _, _, _, _) => true
    case Write(steps) => ApplyAll(world.items, steps).None? || TimelyWrites(world.items, steps)
    case Change(asks, body, user, maxDays) =>
      UpdateAll(world.items, asks, body, user, maxDays).None? || TimelyChanges(world.items, asks, body, user, maxDays)
  }

  function Run(world: World, actions: seq<Action>): World
    decreases |actions|
  {
    if actions == [] then world else Run(Next(world, actions[0]), actions[1..])
  }

  predicate Possible(world: World, actions: seq<Action>)
    decreases |actions|
  {
    actions == [] || (Enabled(world, actions[0]) && Possible(Next(world, actions[0]), actions[1..]))
  }

  /** Every write of the run that records an event is timely. */
  predicate TimelyRun(world: World, actions: seq<Action>)
    decreases |actions|
  {
    actions == [] || (TimelyAction(world, actions[0]) && TimelyRun(Next(world, actions[0]), actions[1..]))
  }

  // What each write of a run leaves

  ghost predicate WritesExplained(items: Items, steps: seq<Step>)
    decreases |steps|
  {
    steps == [] ||
    match ApplyPlan(Lookup(items, steps[0].id), steps[0].plan)
    case Applied(item) => Explained(item) && WritesExplained(items[steps[0].id := item], steps[1..])
    case Skipped => WritesExplained(items, steps[1..])
    case Duplicate => true
  }

  ghost predicate ChangesExplained(items: Items, asks: seq<Ask>, body: Body, user: int, maxDays: int)
    decreases |asks|
  {
    asks == [] ||
    if asks[0].id !in items then ChangesExplained(items, asks[1..], body, user, maxDays)
    else
      match Transition(items[asks[0].id], body, user, asks[0].now, maxDays)
      case Accepted(item) =>
        Explained(item) && ChangesExplained(items[asks[0].id := item], asks[1..], body, user, maxDays)
      case Conflict => ChangesExplained(items, asks[1..], body, user, maxDays)
      case BadRequest => true
  }

  ghost predicate ActionExplained(world: World, action: Action) {
    match action
    case Read(_, _, _, _, _) => true
    case Write(steps) => ApplyAll(world.items, steps).None? || WritesExplained(world.items, steps)
    case Change(asks, body, user, maxDays) =>
      UpdateAll(world.items, asks, body, user, maxDays).None? || ChangesExplained(world.items, asks, body, user, maxDays)
  }

  /** Each write of the run that is not rolled back leaves its row the replay of its log. */
  ghost predicate RunExplained(world: World, actions: seq<Action>)
    decreases |actions|
  {
    actions == [] || (ActionExplained(world, actions[0]) && RunExplained(Next(world, actions[0]), actions[1..]))
  }

  lemma AppliedExplained(items: Items, step: Step)
    requires AllExplained(items) && FromSoundRead(step.plan)
    requires ApplyPlan(Lookup(items, step.id), step.plan).Applied?
    ensures Explained(ApplyPlan(Lookup(items, step.id), step.plan).item) <==>
              (step.id in items && RecordsEvent(step.plan) ==> Timely(items[step.id].log, step.plan.now))
  {
    if step.plan.read.Some? {
      GuardedWriteExplained(items[step.id], step.plan);
    } else {
      assert Before(ApplyPlan(Lookup(items, step.id), step.plan).item.log) == [];
    }
  }

  /** A transaction's writes leave explained rows exactly when they are timely, and then all rows are. */
  lemma {:induction false} WritesStaySound(items: Items, steps: seq<Step>)
    requires AllExplained(items) && AllFromSoundReads(steps)
    ensures WritesExplained(items, steps) <==> TimelyWrites(items, steps)
    ensures TimelyWrites(items, steps) && ApplyAll(items, steps).Some? ==> AllExplained(ApplyAll(items, steps).value)
    decreases |steps|
  {
    if steps != [] {
      assert steps[0] in steps;
      assert forall s :: s in steps[1..] ==> s in steps;
      match ApplyPlan(Lookup(items, steps[0].id), steps[0].plan)
      case Applied(item) =>
        AppliedExplained(items, steps[0]);
        if Explained(item) {
          WritesStaySound(items[steps[0].id := item], steps[1..]);
        }
      case Skipped => WritesStaySound(items, steps[1..]);
      case Duplicate =>
    }
  }

  /** One accepted change of a store whose rows are all explained. */
  lemma OneChangeExplained(items: Items, id: Id, body: Body, user: int, now: int, maxDays: int)
    requires id in items && Transition(items[id], body, user, now, maxDays).Accepted?
    ensures AllExplained(items) ==>
              (AllExplained(items[id := Transition(items[id], body, user, now, maxDays).item]) <==>
                 !Records(items[id], body) || Timely(items[id].log, now))
  {
    if AllExplained(items) {
      TransitionExplained(items[id], body, user, now, maxDays);
      var next := items[id := Transition(items[id], body, user, now, maxDays).item];
      assert AllExplained(next) ==> Explained(next[id]);
    }
  }

  lemma {:induction false} ChangesStaySound(items: Items, asks: seq<Ask>, body: Body, user: int, maxDays: int)
    requires AllExplained(items)
    ensures ChangesExplained(items, asks, body, user, maxDays) <==> TimelyChanges(items, asks, body, user, maxDays)
    ensures TimelyChanges(items, asks, body, user, maxDays) && UpdateAll(items, asks, body, user, maxDays).Some? ==>
              AllExplained(UpdateAll(items, asks, body, user, maxDays).value)
    decreases |asks|
  {
    if asks != [] {
      var id, rest := asks[0].id, asks[1..];
      if id !in items {
        ChangesStaySound(items, rest, body, user, maxDays);
      } else {
        match Transition(items[id], body, user, asks[0].now, maxDays)
        case Accepted(item) =>
          TransitionExplained(items[id], body, user, asks[0].now, maxDays);
          if Explained(item) {
            ChangesStaySound(items[id := item], rest, body, user, maxDays);
          }
        case Conflict => ChangesStaySound(items, rest, body, user, maxDays);
        case BadRequest =>
      }
    }
  }

  lemma TimelyWritesKeep(items: Items, steps: seq<Step>)
    requires ApplyAll(items, steps).Some?
    ensures AllExplained(items) && AllFromSoundReads(steps) && TimelyWrites(items, steps) ==>
              AllExplained(ApplyAll(items, steps).value)
  {
    if AllExplained(items) && AllFromSoundReads(steps) {
      WritesStaySound(items, steps);
    }
  }

  lemma TimelyChangesKeep(items: Items, asks: seq<Ask>, body: Body, user: int, maxDays: int)
    requires UpdateAll(items, asks, body, user, maxDays).Some?
    ensures AllExplained(items) && TimelyChanges(items, asks, body, user, maxDays) ==>
              AllExplained(UpdateAll(items, asks, body, user, maxDays).value)
  {
    if AllExplained(items) {
      ChangesStaySound(items, asks, body, user, maxDays);
    }
  }

  lemma StepStaysSound(world: World, action: Action)
    requires Sound(world) && Enabled(world, action)
    ensures ActionExplained(world, action) <==> TimelyAction(world, action)
    ensures TimelyAction(world, action) ==> Sound(Next(world, action))
  {
    match action
    case Read(id, fired, priority, impact, now) =>
      if id in world.items {
        LegalLife(world.items[id].log);
      }
    case Write(steps) => WritesStaySound(world.items, steps);
    case Change(asks, body, user, maxDays) => ChangesStaySound(world.items, asks, body, user, maxDays);
  }

  /**
   Event sourcing over whole runs: after any interleaving of planning, writing, updating, bulk
   updating and undoing with clocks that are not behind, each row is the replay of its log.
   */
  lemma {:induction false} EveryRunIsExplained(world: World, actions: seq<Action>)
    requires Sound(world) && Possible(world, actions) && TimelyRun(world, actions)
    ensures Sound(Run(world, actions))
    decreases |actions|
  {
    if actions != [] {
      StepStaysSound(world, actions[0]);
      EveryRunIsExplained(Next(world, actions[0]), actions[1..]);
    }
  }

  /**
   The clock condition is exact over whole runs: each write leaves its row the replay of its log if
   and only if each write that records an event is not behind that row's newest event.
   */
  lemma {:induction false} RunExplainedExactly(world: World, actions: seq<Action>)
    requires Sound(world) && Possible(world, actions)
    ensures RunExplained(world, actions) <==> TimelyRun(world, actions)
    decreases |actions|
  {
    if actions != [] {
      StepStaysSound(world, actions[0]);
      if TimelyAction(world, actions[0]) {
        RunExplainedExactly(Next(world, actions[0]), actions[1..]);
      }
    }
  }

  /** What that says about a row's columns, one by one. */
  lemma HistoryExplainsColumns(actions: seq<Action>, id: Id)
    requires Possible(World(map[], {}), actions) && TimelyRun(World(map[], {}), actions)
    requires id in Run(World(map[], {}), actions).items
    ensures var item := Run(World(map[], {}), actions).items[id];
            && item.log != [] && item.row.status == Latest(item.log).status
            && item.row.reopenCount == Reopenings(item.log)
            && (item.row.closedAt.Some? <==> item.row.status in {Done, Dismissed})
            && (item.row.resolvedAt.Some? <==> item.row.status == Resolved)
            && (item.row.snoozedUntil.Some? <==> item.row.status == Snoozed)
            && (item.row.verifiedAt.Some? ==> item.row.status == Done)
  {
    EveryRunIsExplained(World(map[], {}), actions);
    LegalLife(Run(World(map[], {}), actions).items[id].log);
  }

  /**
   A plan that waited through any run is still the plan of the moment when its guard lets it
   through: every pending plan of a sound world meets what `StalePlanIsSafe` asks.
   */
  lemma PendingPlansAreSafe(world: World, actions: seq<Action>, step: Step)
    requires Sound(world) && Possible(world, actions) && TimelyRun(world, actions)
    requires step in Run(world, actions).plans && step.plan.read.Some?
    requires step.id in Run(world, actions).items
    requires UnchangedSinceRead(step.plan.read.value, Run(world, actions).items[step.id].row)
    ensures var item := Run(world, actions).items[step.id];
            && NextLifecycle(Some(item.row), step.plan.fired, step.plan.now) == PlannedOutcome(step.plan)
            && ApplyPlan(Some(item), step.plan).Applied?
            && ApplyPlan(Some(item), step.plan).item.row
            == ApplyPlan(Some(item), Replanned(step.plan, item.row)).item.row
  {
    EveryRunIsExplained(world, actions);
    StalePlanIsSafe(Run(world, actions).items[step.id], step.plan);
  }

  /**
   The clock condition is needed: a run fixes its clock, a user closes the action, and only then
   the run reads and confirms it. The confirmation is stored before the closing it confirms.
   */
  lemma ClockBehindBreaksHistory() returns (item: Item, plan: Plan)
    ensures Explained(item) && plan.read == Some(item.row)
    ensures ApplyPlan(Some(item), plan).Applied?
    ensures var next := ApplyPlan(Some(item), plan).item;
            next.row.verifiedAt.Some? && Replay(next.log).verifiedAt.None?
  {
    var start := Event(Opened, System, Open, 0, 0, None, None, 0);
    var finished := Event(Finished, User(7), Done, 0, 0, None, None, 20);
    var log := [start, finished];
    assert Before(log) == [start] && Before([start]) == [];
    item := Item(Row(Done, 0, 0, 0, None, Some(20), None, None, 0, None), log);
    plan := Plan(Some(item.row), false, 0, 0, 10);
    var verified := MissedEvent(item.row, plan, EventKind.Verified, Done);
    RecordLate(log, verified);
    assert Latest(Record(log, verified)) == finished;
  }
}
