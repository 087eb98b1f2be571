/** The rules of the Action Center in terms of a row's columns, for every write of every run. */
module ActionRules {
  import opened Wrappers
  import opened ActionLifecycle
  import opened ActionEvents
  import opened ActionTransitions
  import opened ActionWrites
  import opened ActionCenter

  // What the generator may do

  function GeneratorEvent(kind: EventKind, status: Status, shown: Row, now: int): Event {
    Event(kind, System, status, shown.priority, shown.impact, None, None, now)
  }

  /** What a detector that fires does to a row: refresh, wake, reopen or only see it. */
  predicate FiredRule(before: Item, plan: Plan, after: Item)
    requires plan.read.Some?
  {
    var (row, now) := (before.row, plan.now);
    var shown := row.(priority := plan.priority, impact := plan.impact, lastSeenAt := now, resolvedAt := None);
    var open := shown.(status := Open, snoozedUntil := None);
    var reopened := open.(reopenCount := row.reopenCount + 1, closedAt := None, verifiedAt := None);
    match row.status
    case Open => after == Item(open, before.log)
    case Snoozed =>
      if row.snoozedUntil.Some? && now < row.snoozedUntil.value then after == Item(shown, before.log)
      else after == Item(open, Record(before.log, GeneratorEvent(Woke, Open, shown, now)))
    case Done =>
      var since := if row.closedAt.Some? then row.closedAt.value else plan.read.value.lastSeenAt;
      if row.verifiedAt.Some? || now >= since + 14 * 24 * 60 * 60 * 1000 then
        after == Item(reopened, Record(before.log, GeneratorEvent(Reopened, Open, shown, now)))
      else after == before.(row := row.(lastSeenAt := now))
    case Dismissed => after == before.(row := row.(lastSeenAt := now))
    case Resolved => after == Item(reopened, Record(before.log, GeneratorEvent(Reopened, Open, shown, now)))
  }

  /** What a detector that does not fire any more does: resolve, or verify what was done. */
  predicate MissedRule(before: Item, plan: Plan, after: Item)
    requires plan.read.Some?
  {
    var (row, read, now) := (before.row, plan.read.value, plan.now);
    match row.status
    case Open =>
      after == Item(row.(status := Resolved, resolvedAt := Some(now), snoozedUntil := None),
                    Record(before.log, GeneratorEvent(Cleared, Resolved, read, now)))
    case Snoozed =>
      after == Item(row.(status := Resolved, resolvedAt := Some(now), snoozedUntil := None),
                    Record(before.log, GeneratorEvent(Cleared, Resolved, read, now)))
    case Done =>
      if row.verifiedAt.Some? then after == before
      else after == Item(row.(verifiedAt := Some(now)),
                         Record(before.log, GeneratorEvent(EventKind.Verified, Done, read, now)))
    case _ => after == before
  }

  /** The columns that must be as they were read for a write to happen. */
  predicate SameColumns(read: Row, row: Row) {
    && row.status == read.status && row.reopenCount == read.reopenCount
    && row.snoozedUntil == read.snoozedUntil && row.closedAt == read.closedAt && row.verifiedAt == read.verifiedAt
  }

  /** What one planned write does, in columns: create, write under the guard, skip, or fail on a duplicate. */
  predicate WriteRule(current: Option<Item>, plan: Plan, written: Written) {
    match plan.read
    case None =>
      if current.Some? then written == Duplicate
      else
        var row := Row(Open, plan.priority, plan.impact, 0, None, None, None, None, plan.now, None);
        written == Applied(Item(row, [GeneratorEvent(Opened, Open, row, plan.now)]))
    case Some(read) =>
      if current.None? || !SameColumns(read, current.value.row) then written == Skipped
      else
        && written.Applied?
        && (plan.fired ==> FiredRule(current.value, plan, written.item))
        && (!plan.fired ==> MissedRule(current.value, plan, written.item))
  }

  lemma WritesFollowRules(current: Option<Item>, plan: Plan)
    ensures WriteRule(current, plan, ApplyPlan(current, plan))
  {
  }

  /** A read plans a write for what fired, and for a missed row that is open, snoozed, or done without verification. */
  lemma ReadPlans(world: World, id: Id, fired: bool, priority: int, impact: int, now: int)
    ensures var read := if id in world.items then Some(world.items[id].row) else None;
            var step := Step(id, Plan(read, fired, priority, impact, now));
            var next := Next(world, Read(id, fired, priority, impact, now));
            && next.items == world.items
            && next.plans == world.plans +
               (if fired || (read.Some? && (read.value.status in {Open, Snoozed}
                                            || (read.value.status == Done && read.value.verifiedAt.None?)))
                then {step} else {})
  {
  }

  /** Every write of a transaction follows the rules, from the rows that the writes before it left. */
  predicate StepsFollowRules(items: Items, steps: seq<Step>)
    decreases |steps|
  {
    steps == [] ||
    var (id, plan) := (steps[0].id, steps[0].plan);
    var written := ApplyPlan(if id in items then Some(items[id]) else None, plan);
    WriteRule(if id in items then Some(items[id]) else None, plan, written)
    && (written.Duplicate? || StepsFollowRules(if written.Applied? then items[id := written.item] else items, steps[1..]))
  }

  predicate RunFollowsRules(world: World, actions: seq<Action>)
    decreases |actions|
  {
    actions == [] ||
    ((actions[0].Write? ==> StepsFollowRules(world.items, actions[0].steps))
     && RunFollowsRules(Next(world, actions[0]), actions[1..]))
  }

  lemma {:induction false} StepsFollow(items: Items, steps: seq<Step>)
    ensures StepsFollowRules(items, steps)
    decreases |steps|
  {
    if steps != [] {
      var (id, plan) := (steps[0].id, steps[0].plan);
      var current := if id in items then Some(items[id]) else None;
      WritesFollowRules(current, plan);
      var written := ApplyPlan(current, plan);
      StepsFollow(if written.Applied? then items[id := written.item] else items, steps[1..]);
    }
  }

  /**
   Over every run, from any state: each generator write refreshes an open row, wakes a snoozed one that
   fired exactly when its date has passed, reopens a done one that fired only when it was verified or
   closed at least fourteen days ago, always reopens a resolved one that fired, resolves only open and
   snoozed ones that were missed, and leaves a dismissed one alone.
   */
  lemma {:induction false} EveryRunFollowsRules(world: World, actions: seq<Action>)
    ensures RunFollowsRules(world, actions)
    decreases |actions|
  {
    if actions != [] {
      if actions[0].Write? {
        StepsFollow(world.items, actions[0].steps);
      }
      EveryRunFollowsRules(Next(world, actions[0]), actions[1..]);
    }
  }

  // What a user may do

  /** A reason only with a dismissal, and a date exactly with a snooze. */
  predicate WellFormedBody(body: Body) {
    (body.reason.Some? ==> body.status == Dismissed) && (body.snoozedUntil.Some? <==> body.status == Snoozed)
  }

  /** The newest dismissal in the log gave this reason. */
  predicate DismissedFor(log: seq<Event>, reason: Option<int>) {
    exists k :: 0 <= k < |log| && NewestDismissal(log, k) && log[k].reason == reason
  }

  predicate NewestDismissal(log: seq<Event>, k: nat)
    requires k < |log|
  {
    log[k].kind == Rejected && forall m :: k < m < |log| ==> log[m].kind != Rejected
  }

  lemma {:induction false} DismissalFound(log: seq<Event>, reason: Option<int>)
    ensures LatestDismissal(log).Some? && LatestDismissal(log).value.reason == reason <==> DismissedFor(log, reason)
  {
    if log != [] {
      var last := |log| - 1;
      if log[last].kind == Rejected {
        assert NewestDismissal(log, last);
      } else {
        DismissalFound(Before(log), reason);
        forall k | 0 <= k < last
          ensures NewestDismissal(log, k) <==> NewestDismissal(Before(log), k)
        {
          assert forall m :: k < m < last ==> Before(log)[m] == log[m];
        }
        assert !NewestDismissal(log, last);
      }
    }
  }

  /** The row is what the body asks for already: done, snoozed until then, or dismissed for that or no reason. */
  predicate AlreadySo(item: Item, body: Body) {
    body.status == item.row.status &&
    match body.status
    case Done => true
    case Snoozed => body.snoozedUntil == item.row.snoozedUntil
    case Dismissed => body.reason.None? || DismissedFor(item.log, body.reason)
    case Open => false
  }

  /** What a user's change leaves of a row: the columns of the status it asks for. */
  function ChangedRow(row: Row, body: Body, now: int): Row {
    var noted := if body.note.Some? then row.(note := body.note) else row;
    match body.status
    case Done =>
      noted.(status := Done, closedAt := Some(now), verifiedAt := None, resolvedAt := None, snoozedUntil := None)
    case Dismissed => noted.(status := Dismissed, closedAt := Some(now), verifiedAt := None, snoozedUntil := None)
    case Snoozed =>
      noted.(status := Snoozed, snoozedUntil := body.snoozedUntil, closedAt := None, verifiedAt := None,
             resolvedAt := None)
    case Open =>
      noted.(status := Open, closedAt := None, verifiedAt := None, resolvedAt := None, snoozedUntil := None,
             reopenCount := row.reopenCount + if row.status in {Done, Dismissed, Resolved} then 1 else 0)
  }

  /** The event a change records; opening an open row records none. */
  predicate RecordedKind(row: Row, body: Body, kind: EventKind) {
    match body.status
    case Done => kind == Finished
    case Dismissed => kind == Rejected
    case Snoozed => kind == PutOff
    case Open => row.status != Open && kind == if row.status == Snoozed then Woke else Reopened
  }

  /** What is answered to a change that is no undo, in columns. */
  predicate ChangeRule(item: Item, body: Body, user: int, now: int, maxDays: int, answer: Answer) {
    var row := item.row;
    if !WellFormedBody(body) then answer == BadRequest
    else if AlreadySo(item, body) then
      answer == Accepted(Item(if body.note.Some? then row.(note := body.note) else row, item.log))
    else if body.status == Snoozed
            && !(now < body.snoozedUntil.value <= now + maxDays * (24 * 60 * 60 * 1000)) then answer == BadRequest
    else if row.status == Resolved && body.status != Open then answer == Conflict
    else
      && answer.Accepted? && answer.item.row == ChangedRow(row, body, now)
      && (body.status == Open && row.status == Open ==> answer.item.log == item.log)
      && (forall kind :: RecordedKind(row, body, kind) ==>
            answer.item.log == Record(item.log, Event(kind, User(user), body.status, row.priority, row.impact,
                                                      body.snoozedUntil, body.reason, now)))
  }

  lemma ChangesFollowRules(item: Item, body: Body, user: int, now: int, maxDays: int)
    requires !body.revert
    ensures ChangeRule(item, body, user, now, maxDays, Transition(item, body, user, now, maxDays))
  {
    DismissalFound(item.log, body.reason);
  }

  /**
   When an undo is taken: its request is well formed and asks for another state than the row's, the
   newest event is the user's own and at most ten minutes old, and the status asked for is that of the
   event before it, or OPEN when there is none.
   */
  lemma UndoTaken(item: Item, body: Body, user: int, now: int, maxDays: int)
    requires body.revert
    ensures var (answer, log) := (Transition(item, body, user, now, maxDays), item.log);
            && (answer == BadRequest <==> !WellFormedBody(body))
            && (answer.Accepted? <==>
                  && WellFormedBody(body)
                  && (body.status == item.row.status ==>
                        body.status == Dismissed || (body.status == Snoozed && body.snoozedUntil != item.row.snoozedUntil))
                  && |log| > 0 && log[|log| - 1].actor == User(user) && now <= log[|log| - 1].occurredAt + 10 * 60 * 1000
                  && body.status == if |log| == 1 then Open else log[|log| - 2].status)
            && (answer.Accepted? ==> answer.item.log == log[..|log| - 1] && answer.item.row.status == body.status)
            && (answer.Accepted? ==>
                  answer.item.row.reopenCount == item.row.reopenCount - if log[|log| - 1].kind == Reopened then 1 else 0)
  {
  }

  // What a user dismissed stays dismissed

  /** The dismissed row is still there, with its log, and only when it was last seen may have moved. */
  predicate StillDismissed(items: Items, id: Id, was: Item) {
    && id in items
    && items[id].row == was.row.(lastSeenAt := items[id].row.lastSeenAt)
    && items[id].log == was.log
  }

  predicate AsksFor(action: Action, id: Id) {
    action.Change? && exists k :: 0 <= k < |action.asks| && action.asks[k].id == id
  }

  lemma {:induction false} StepsLeaveDismissed(items: Items, steps: seq<Step>, id: Id, was: Item)
    requires was.row.status == Dismissed && StillDismissed(items, id, was)
    ensures ApplyAll(items, steps).Some? ==> StillDismissed(ApplyAll(items, steps).value, id, was)
    decreases |steps|
  {
    if steps != [] {
      var current := Lookup(items, steps[0].id);
      WritesFollowRules(current, steps[0].plan);
      match ApplyPlan(current, steps[0].plan)
      case Applied(item) => StepsLeaveDismissed(items[steps[0].id := item], steps[1..], id, was);
      case Skipped => StepsLeaveDismissed(items, steps[1..], id, was);
      case Duplicate =>
    }
  }

  lemma {:induction false} ChangesLeaveOthers(items: Items, asks: seq<Ask>, body: Body, user: int, maxDays: int, id: Id)
    requires id in items && forall k :: 0 <= k < |asks| ==> asks[k].id != id
    ensures UpdateAll(items, asks, body, user, maxDays).Some? ==>
              var next := UpdateAll(items, asks, body, user, maxDays).value;
              id in next && next[id] == items[id]
    decreases |asks|
  {
    if asks != [] {
      if asks[0].id !in items {
        ChangesLeaveOthers(items, asks[1..], body, user, maxDays, id);
      } else {
        match Transition(items[asks[0].id], body, user, asks[0].now, maxDays)
        case Accepted(item) => ChangesLeaveOthers(items[asks[0].id := item], asks[1..], body, user, maxDays, id);
        case Conflict => ChangesLeaveOthers(items, asks[1..], body, user, maxDays, id);
        case BadRequest =>
      }
    }
  }

  lemma NextLeavesDismissed(world: World, action: Action, id: Id, was: Item)
    requires was.row.status == Dismissed && StillDismissed(world.items, id, was) && !AsksFor(action, id)
    ensures StillDismissed(Next(world, action).items, id, was)
  {
    match action
    case Read(_, _, _, _, _) =>
    case Write(steps) => StepsLeaveDismissed(world.items, steps, id, was);
    case Change(asks, body, user, maxDays) => ChangesLeaveOthers(world.items, asks, body, user, maxDays, id);
  }

  /** Over every run until a user asks for it, a dismissed action keeps its columns and its log. */
  lemma {:induction false} DismissedStays(world: World, actions: seq<Action>, id: Id, was: Item)
    requires was.row.status == Dismissed && StillDismissed(world.items, id, was)
    requires forall k :: 0 <= k < |actions| ==> !AsksFor(actions[k], id)
    ensures StillDismissed(Run(world, actions).items, id, was)
    decreases |actions|
  {
    if actions != [] {
      NextLeavesDismissed(world, actions[0], id, was);
      DismissedStays(Next(world, actions[0]), actions[1..], id, was);
    }
  }
}
