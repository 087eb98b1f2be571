/**
 The event log of one action. A log is kept in the order the service queries it, oldest
 first: by `occurredAt`, and events of one instant in the order they were recorded.
 */
module ActionEvents {
  import opened Wrappers
  import opened ActionLifecycle

  datatype EventKind = Opened | Reopened | PutOff | Woke | Finished | Rejected | Cleared | Verified

  datatype Actor = System | User(id: int)

  datatype Event = Event(
    kind: EventKind,
    actor: Actor,
    status: Status,
    priority: int,
    impact: int,
    snoozedUntil: Option<int>,
    reason: Option<int>,
    occurredAt: int)

  /** An action together with its recorded events. */
  datatype Item = Item(row: Row, log: seq<Event>)

  function Latest(log: seq<Event>): Event
    requires log != []
  {
    log[|log| - 1]
  }

  function Before(log: seq<Event>): seq<Event>
    requires log != []
  {
    log[..|log| - 1]
  }

  /** Stores an event: a query that orders by `occurredAt` finds it after every event not later than it. */
  function Record(log: seq<Event>, event: Event): (result: seq<Event>)
    ensures |result| == |log| + 1
  {
    if log == [] || Latest(log).occurredAt <= event.occurredAt
    then log + [event]
    else Record(Before(log), event) + [Latest(log)]
  }

  /** No event of the log is later than `now`, so an event stamped `now` is recorded last. */
  predicate Timely(log: seq<Event>, now: int) {
    log == [] || Latest(log).occurredAt <= now
  }

  /** The part of a row that its history has to explain. */
  datatype Life = Life(
    status: Status,
    closedAt: Option<int>,
    verifiedAt: Option<int>,
    resolvedAt: Option<int>,
    snoozedUntil: Option<int>,
    reopenCount: int)

  function LifeOf(row: Row): Life {
    Life(row.status, row.closedAt, row.verifiedAt, row.resolvedAt, row.snoozedUntil, row.reopenCount)
  }

  /** What one event means, read without looking at the row. */
  function Apply(life: Life, event: Event): Life {
    match event.kind
    case Opened => Life(Open, None, None, None, None, 0)
    case Reopened => Life(Open, None, None, None, None, life.reopenCount + 1)
    case Woke => Life(Open, None, None, None, None, life.reopenCount)
    case PutOff => Life(Snoozed, None, None, None, event.snoozedUntil, life.reopenCount)
    case Finished => Life(Done, Some(event.occurredAt), None, None, None, life.reopenCount)
    case Rejected => Life(Dismissed, Some(event.occurredAt), None, None, None, life.reopenCount)
    case Cleared => Life(Resolved, None, None, Some(event.occurredAt), None, life.reopenCount)
    case Verified => life.(verifiedAt := Some(event.occurredAt))
  }

  /** The life a log tells: the independent reference for the row's columns. */
  function Replay(log: seq<Event>): Life {
    if log == [] then Life(Open, None, None, None, None, 0)
    else Apply(Replay(Before(log)), Latest(log))
  }

  /** The events that may follow a life, and the status each of them carries. */
  predicate MayFollow(life: Life, event: Event) {
    match event.kind
    case Opened => false
    case Reopened => life.status in {Done, Dismissed, Resolved} && event.status == Open
    case Woke => life.status == Snoozed && event.status == Open
    case PutOff => life.status != Resolved && event.status == Snoozed && event.snoozedUntil.Some?
    case Finished => life.status !in {Done, Resolved} && event.status == Done
    case Rejected => life.status != Resolved && event.status == Dismissed
    case Cleared => life.status in {Open, Snoozed} && event.status == Resolved
    case Verified => life.status == Done && life.verifiedAt.None? && event.status == Done
  }

  /** A log that starts with `opened` and in which every later event may follow what precedes it. */
  predicate Legal(log: seq<Event>) {
    log != [] &&
    if |log| == 1
    then log[0].kind == Opened && log[0].status == Open
    else Legal(Before(log)) && MayFollow(Replay(Before(log)), Latest(log))
  }

  predicate Ordered(log: seq<Event>) {
    forall i, j :: 0 <= i < j < |log| ==> log[i].occurredAt <= log[j].occurredAt
  }

  /** The row's columns are exactly the replay of its log. */
  predicate Explained(item: Item) {
    && Legal(item.log)
    && Ordered(item.log)
    && LifeOf(item.row) == Replay(item.log)
  }

  /** Where a row may keep an instant: the shape that replaying a legal log gives. */
  predicate Shaped(life: Life) {
    && (life.closedAt.Some? <==> life.status in {Done, Dismissed})
    && (life.verifiedAt.Some? ==> life.status == Done)
    && (life.resolvedAt.Some? <==> life.status == Resolved)
    && (life.snoozedUntil.Some? <==> life.status == Snoozed)
    && life.reopenCount >= 0
  }

  function Reopenings(log: seq<Event>): nat {
    if log == [] then 0
    else Reopenings(Before(log)) + if Latest(log).kind == Reopened then 1 else 0
  }

  /** A legal log fixes the shape of the life, its status and how often it was reopened. */
  lemma {:induction false} LegalLife(log: seq<Event>)
    requires Legal(log)
    ensures Shaped(Replay(log))
    ensures Replay(log).status == Latest(log).status
    ensures Replay(log).reopenCount == Reopenings(log)
  {
    if |log| == 1 {
      assert Before(log) == [];
    } else {
      LegalLife(Before(log));
    }
  }

  /** In a legal log a verification stands directly behind the event that closed the action. */
  lemma ClosingEvent(log: seq<Event>)
    requires Legal(log) && Replay(log).status == Done
    ensures Replay(log).verifiedAt.None? ==>
              Latest(log).kind == Finished && Replay(log).closedAt == Some(Latest(log).occurredAt)
    ensures Replay(log).verifiedAt.Some? ==>
              && Latest(log).kind == Verified && |log| > 1
              && Replay(log).verifiedAt == Some(Latest(log).occurredAt)
              && Replay(log).closedAt == Some(Latest(Before(log)).occurredAt)
  {
    if |log| > 1 && Latest(log).kind == Verified {
      ClosingEvent(Before(log));
    }
  }

  /** Recording an event that is not older than the newest one appends it. */
  lemma RecordTimely(log: seq<Event>, event: Event)
    requires Timely(log, event.occurredAt)
    ensures Record(log, event) == log + [event]
    ensures Before(Record(log, event)) == log && Latest(Record(log, event)) == event
    ensures Ordered(log) ==> Ordered(Record(log, event))
  {
  }

  /** Recording an event that is older than the newest one leaves the newest one in place. */
  lemma RecordLate(log: seq<Event>, event: Event)
    requires !Timely(log, event.occurredAt)
    ensures Record(log, event) == Record(Before(log), event) + [Latest(log)]
    ensures Before(Record(log, event)) == Record(Before(log), event)
    ensures Latest(Record(log, event)) == Latest(log)
  {
  }
}
