/** The generator's side: writes planned from a read, applied later under a guard. */
module ActionWrites {
  import opened Wrappers
  import opened ActionLifecycle
  import opened ActionEvents
  import opened ActionTransitions

  /** One planned write: the row as it was read (or none), what the detectors said, and the run's clock. */
  datatype Plan = Plan(read: Option<Row>, fired: bool, priority: int, impact: int, now: int)

  /** Written, skipped because the guard failed, or failed on the unique fingerprint. */
  datatype Written = Applied(item: Item) | Skipped | Duplicate

  predicate UnchangedSinceRead(read: Row, current: Row) {
    && current.status == read.status
    && current.reopenCount == read.reopenCount
    && current.snoozedUntil == read.snoozedUntil
    && current.closedAt == read.closedAt
    && current.verifiedAt == read.verifiedAt
  }

  function PlannedOutcome(plan: Plan): Outcome {
    NextLifecycle(plan.read, plan.fired, plan.now)
  }

  function DetectionEvent(plan: Plan, kind: EventKind): Event {
    Event(kind, System, Open, plan.priority, plan.impact, None, None, plan.now)
  }

  function MissedEvent(read: Row, plan: Plan, kind: EventKind, status: Status): Event {
    Event(kind, System, status, read.priority, read.impact, None, None, plan.now)
  }

  function Refreshed(row: Row, plan: Plan): Row {
    row.(priority := plan.priority, impact := plan.impact, lastSeenAt := plan.now)
  }

  function CreatedItem(plan: Plan): Item {
    Item(Row(Open, plan.priority, plan.impact, 0, None, None, None, None, plan.now, None),
         [DetectionEvent(plan, Opened)])
  }

  /** The planned columns and event, written to a row that passed the guard. */
  function WriteUnder(read: Row, item: Item, plan: Plan): Item {
    var row := item.row;
    match PlannedOutcome(plan)
    case Reopen(count) =>
      Item(Refreshed(row, plan).(status := Open, reopenCount := count, closedAt := None,
                                 verifiedAt := None, resolvedAt := None, snoozedUntil := None),
           Record(item.log, DetectionEvent(plan, Reopened)))
    case Refresh(status) =>
      var woke := read.status == Snoozed && status == Open;
      Item(Refreshed(row, plan).(status := status, resolvedAt := None,
                                 snoozedUntil := if status == Open then None else row.snoozedUntil),
           if woke then Record(item.log, DetectionEvent(plan, Woke)) else item.log)
    case Touch => item.(row := row.(lastSeenAt := plan.now))
    case Resolve =>
      Item(row.(status := Resolved, resolvedAt := Some(plan.now), snoozedUntil := None),
           Record(item.log, MissedEvent(read, plan, Cleared, Resolved)))
    case Verify =>
      Item(row.(verifiedAt := Some(plan.now)),
           Record(item.log, MissedEvent(read, plan, EventKind.Verified, Done)))
    case _ => item
  }

  /** A plan that has no write: the run makes no step of it. */
  predicate HasWrite(plan: Plan) {
    PlannedOutcome(plan) != Noop
  }

  function ApplyPlan(current: Option<Item>, plan: Plan): Written {
    if plan.read.None? then
      if current.Some? then Duplicate else Applied(CreatedItem(plan))
    else if current.None? || !UnchangedSinceRead(plan.read.value, current.value.row) then Skipped
    else Applied(WriteUnder(plan.read.value, current.value, plan))
  }

  /** Whether the write of a plan for a row that was read records an event. */
  predicate RecordsEvent(plan: Plan)
    requires plan.read.Some?
  {
    match PlannedOutcome(plan)
    case Reopen(_) => true
    case Resolve => true
    case Verify => true
    case Refresh(status) => plan.read.value.status == Snoozed && status == Open
    case _ => false
  }

  /**
   A guarded write of an explained row stays explained exactly when it records nothing or the
   run's clock is not behind the newest event.
   */
  lemma GuardedWriteExplained(item: Item, plan: Plan)
    requires Explained(item) && plan.read.Some? && HasWrite(plan)
    requires UnchangedSinceRead(plan.read.value, item.row)
    ensures Explained(WriteUnder(plan.read.value, item, plan)) <==>
              !RecordsEvent(plan) || Timely(item.log, plan.now)
  {
    var read := plan.read.value;
    var next := WriteUnder(read, item, plan);
    LegalLife(item.log);
    match PlannedOutcome(plan)
    case Reopen(_) => RecordedEventExplains(item, next.row, DetectionEvent(plan, Reopened));
    case Resolve => RecordedEventExplains(item, next.row, MissedEvent(read, plan, Cleared, Resolved));
    case Verify => RecordedEventExplains(item, next.row, MissedEvent(read, plan, EventKind.Verified, Done));
    case Refresh(status) =>
      if read.status == Snoozed && status == Open {
        RecordedEventExplains(item, next.row, DetectionEvent(plan, Woke));
      }
    case _ =>
  }

  /** The same plan made from the row as it is now. */
  function Replanned(plan: Plan, current: Row): Plan {
    plan.(read := Some(current))
  }

  predicate RecordsMissed(plan: Plan) {
    PlannedOutcome(plan) in {Resolve, Verify}
  }

  /**
   Stale plans are safe: when the guard lets an old plan through, it writes the very row, and
   records the very kind of event, that a plan made now would. Neither `lastSeenAt` nor
   `resolvedAt` is guarded; a DONE row always has `closedAt`, which is why they do not matter.
   Only the magnitudes copied into a resolved or verified event can be out of date.
   */
  lemma StalePlanIsSafe(item: Item, plan: Plan)
    requires plan.read.Some? && HasWrite(plan)
    requires plan.read.value.status == Done ==> plan.read.value.closedAt.Some?
    requires UnchangedSinceRead(plan.read.value, item.row)
    ensures var anew := Replanned(plan, item.row);
            && PlannedOutcome(anew) == PlannedOutcome(plan)
            && WriteUnder(item.row, item, anew).row == WriteUnder(plan.read.value, item, plan).row
            && (WriteUnder(item.row, item, anew).log == WriteUnder(plan.read.value, item, plan).log <==>
                  (RecordsMissed(plan) ==>
                     plan.read.value.priority == item.row.priority && plan.read.value.impact == item.row.impact))
  {
    var read, anew := plan.read.value, Replanned(plan, item.row);
    match PlannedOutcome(plan)
    case Resolve =>
      RecordInjective(item.log, MissedEvent(read, plan, Cleared, Resolved),
                      MissedEvent(item.row, anew, Cleared, Resolved));
    case Verify =>
      RecordInjective(item.log, MissedEvent(read, plan, EventKind.Verified, Done),
                      MissedEvent(item.row, anew, EventKind.Verified, Done));
    case _ =>
  }

  lemma {:induction false} RecordInjective(log: seq<Event>, left: Event, right: Event)
    requires left.occurredAt == right.occurredAt
    ensures Record(log, left) == Record(log, right) <==> left == right
  {
    if log == [] || Latest(log).occurredAt <= left.occurredAt {
      assert Latest(log + [left]) == left && Latest(log + [right]) == right;
    } else {
      RecordInjective(Before(log), left, right);
      assert Before(Record(log, left)) == Record(Before(log), left);
      assert Before(Record(log, right)) == Record(Before(log), right);
    }
  }

  /** Without `closedAt` on a DONE row the unguarded `lastSeenAt` would decide, and a stale plan would differ. */
  lemma ShapeIsNeeded() returns (plan: Plan, current: Row)
    ensures plan.read.Some? && UnchangedSinceRead(plan.read.value, current)
    ensures PlannedOutcome(Replanned(plan, current)) != PlannedOutcome(plan)
  {
    var now := REOPEN_AFTER_DAYS * DAY_MS;
    var read := Row(Done, 0, 0, 0, None, None, None, None, 0, None);
    plan := Plan(Some(read), true, 0, 0, now);
    current := read.(lastSeenAt := now);
  }
}
