/**
 The rows of the Action Center and the transition table a generator run reads.
 Instants are milliseconds; a priority is its place in the priority order.
 */
module ActionLifecycle {
  import opened Wrappers

  const DAY_MS := 86_400_000
  const REOPEN_AFTER_DAYS := 14

  datatype Status = Open | Snoozed | Done | Dismissed | Resolved

  datatype Row = Row(
    status: Status,
    priority: int,
    impact: int,
    reopenCount: int,
    snoozedUntil: Option<int>,
    closedAt: Option<int>,
    verifiedAt: Option<int>,
    resolvedAt: Option<int>,
    lastSeenAt: int,
    note: Option<string>)

  datatype Outcome =
    | Create
    | Refresh(status: Status)
    | Reopen(reopenCount: int)
    | Resolve
    | Verify
    | Touch
    | Noop

  predicate ReopenIsDue(existing: Row, now: int) {
    now - existing.closedAt.GetOr(existing.lastSeenAt) >= REOPEN_AFTER_DAYS * DAY_MS
  }

  function FiredOutcome(existing: Row, now: int): Outcome {
    match existing.status
    case Open => Refresh(Open)
    case Snoozed =>
      if existing.snoozedUntil.Some? && existing.snoozedUntil.value > now
      then Refresh(Snoozed)
      else Refresh(Open)
    case Done =>
      if existing.verifiedAt.Some? || ReopenIsDue(existing, now)
      then Reopen(existing.reopenCount + 1)
      else Touch
    case Dismissed => Touch
    case Resolved => Reopen(existing.reopenCount + 1)
  }

  function MissedOutcome(existing: Row): Outcome {
    match existing.status
    case Open => Resolve
    case Snoozed => Resolve
    case Done => if existing.verifiedAt.None? then Verify else Noop
    case Dismissed => Noop
    case Resolved => Noop
  }

  function NextLifecycle(existing: Option<Row>, fired: bool, now: int): Outcome {
    match existing
    case None => if fired then Create else Noop
    case Some(row) => if fired then FiredOutcome(row, now) else MissedOutcome(row)
  }
}
