/** The user's side of the action state machine: updates, snoozes, dismissals and undo. */
module ActionTransitions {
  import opened Wrappers
  import opened ActionLifecycle
  import opened ActionEvents

  const REVERT_WINDOW_MINUTES := 10
  const MINUTE_MS := 60_000

  type UpdateStatus = s: Status | s != Resolved witness Open

  datatype Body = Body(
    status: UpdateStatus,
    snoozedUntil: Option<int>,
    note: Option<string>,
    reason: Option<int>,
    revert: bool)

  /** Accepted with the new state, a conflict, or a bad request. */
  datatype Answer = Accepted(item: Item) | Conflict | BadRequest

  predicate ValidShape(body: Body) {
    && (body.reason.Some? ==> body.status == Dismissed)
    && (body.snoozedUntil.Some? <==> body.status == Snoozed)
  }

  predicate IsNoteOnly(current: Row, body: Body) {
    body.status == current.status &&
    match body.status
    case Snoozed => body.snoozedUntil.Some? && current.snoozedUntil == body.snoozedUntil
    case Dismissed => body.reason.None?
    case Done => true
    case _ => false
  }

  /** The newest `dismissed` event of a log, if there is one. */
  function LatestDismissal(log: seq<Event>): Option<Event> {
    if log == [] then None
    else if Latest(log).kind == Rejected then Some(Latest(log))
    else LatestDismissal(Before(log))
  }

  predicate RepeatsDismissal(item: Item, body: Body) {
    && item.row.status == Dismissed
    && body.status == Dismissed
    && body.reason.Some?
    && LatestDismissal(item.log).Some?
    && LatestDismissal(item.log).value.reason == body.reason
  }

  predicate SnoozeDateAllowed(body: Body, now: int, maxDays: int) {
    body.snoozedUntil.Some? ==> now < body.snoozedUntil.value <= now + maxDays * DAY_MS
  }

  predicate CountsAsReopen(previous: Status, target: UpdateStatus) {
    target == Open && previous != Open && previous != Snoozed
  }

  function SideEffects(row: Row, target: UpdateStatus, snoozedUntil: Option<int>, now: int): Row {
    match target
    case Done => row.(closedAt := Some(now), verifiedAt := None, resolvedAt := None, snoozedUntil := None)
    case Dismissed => row.(closedAt := Some(now), verifiedAt := None, snoozedUntil := None)
    case Snoozed => row.(snoozedUntil := snoozedUntil, closedAt := None, verifiedAt := None, resolvedAt := None)
    case Open => row.(closedAt := None, verifiedAt := None, resolvedAt := None, snoozedUntil := None)
  }

  function TransitionEvent(previous: Status, target: UpdateStatus): Option<EventKind> {
    match target
    case Done => Some(Finished)
    case Dismissed => Some(Rejected)
    case Snoozed => Some(PutOff)
    case Open =>
      if previous == Open then None
      else if previous == Snoozed then Some(Woke)
      else Some(Reopened)
  }

  function WithNote(row: Row, body: Body): Row {
    if body.note.Some? then row.(note := body.note) else row
  }

  function Transition(item: Item, body: Body, user: int, now: int, maxDays: int): Answer {
    var current := item.row;
    if !ValidShape(body) then BadRequest
    else if body.revert then Revert(item, body, user, now)
    else if IsNoteOnly(current, body) || RepeatsDismissal(item, body) then
      Accepted(item.(row := WithNote(current, body)))
    else if !SnoozeDateAllowed(body, now, maxDays) then BadRequest
    else if current.status == Resolved && body.status != Open then Conflict
    else
      var reopened := if CountsAsReopen(current.status, body.status) then 1 else 0;
      var moved := WithNote(current, body).(status := body.status, reopenCount := current.reopenCount + reopened);
      var row := SideEffects(moved, body.status, body.snoozedUntil, now);
      match TransitionEvent(current.status, body.status)
      case None => Accepted(Item(row, item.log))
      case Some(kind) =>
        var event := Event(kind, User(user), body.status, current.priority, current.impact,
                           body.snoozedUntil, body.reason, now);
        Accepted(Item(row, Record(item.log, event)))
  }

  predicate IsAlreadyRestored(current: Row, body: Body) {
    && body.status == current.status
    && body.status != Dismissed
    && (body.status == Snoozed ==> body.snoozedUntil.Some? && current.snoozedUntil == body.snoozedUntil)
  }

  /** Rebuilds a closed, snoozed or open row from the events that are left. */
  function RestoredState(row: Row, target: UpdateStatus, earlier: seq<Event>): Row {
    var cleared := row.(closedAt := None, verifiedAt := None, resolvedAt := None, snoozedUntil := None);
    if target == Snoozed then
      cleared.(snoozedUntil := if earlier == [] then None else Latest(earlier).snoozedUntil)
    else if target == Open || earlier == [] then cleared
    else if Latest(earlier).kind == Verified then
      var closing := Before(earlier);
      cleared.(closedAt := Some(if closing == [] then Latest(earlier).occurredAt else Latest(closing).occurredAt),
               verifiedAt := Some(Latest(earlier).occurredAt))
    else cleared.(closedAt := Some(Latest(earlier).occurredAt))
  }

  function Revert(item: Item, body: Body, user: int, now: int): Answer {
    if IsAlreadyRestored(item.row, body) then Conflict
    else if item.log == [] then Conflict
    else
      var latest := Latest(item.log);
      var earlier := Before(item.log);
      if latest.actor != User(user) || latest.occurredAt < now - REVERT_WINDOW_MINUTES * MINUTE_MS then Conflict
      else if body.status != (if earlier == [] then Open else Latest(earlier).status) then Conflict
      else
        var undone := if latest.kind == Reopened then 1 else 0;
        var moved := item.row.(status := body.status, reopenCount := item.row.reopenCount - undone);
        Accepted(Item(RestoredState(moved, body.status, earlier), earlier))
  }

  /** Whether an accepted change records an event. */
  predicate Records(item: Item, body: Body) {
    && !body.revert
    && !IsNoteOnly(item.row, body)
    && !RepeatsDismissal(item, body)
    && TransitionEvent(item.row.status, body.status).Some?
  }

  /**
   A user's change of an explained row stays explained exactly when it records nothing or
   its clock is not behind the newest event.
   */
  lemma TransitionExplained(item: Item, body: Body, user: int, now: int, maxDays: int)
    requires Explained(item)
    requires Transition(item, body, user, now, maxDays).Accepted?
    ensures Explained(Transition(item, body, user, now, maxDays).item) <==>
              !Records(item, body) || Timely(item.log, now)
    ensures |Transition(item, body, user, now, maxDays).item.log| > |item.log| <==> Records(item, body)
  {
    var next := Transition(item, body, user, now, maxDays).item;
    LegalLife(item.log);
    if body.revert {
      RevertExplained(item, body, user, now);
    } else if Records(item, body) {
      var kind := TransitionEvent(item.row.status, body.status).value;
      var event := Event(kind, User(user), body.status, item.row.priority, item.row.impact,
                         body.snoozedUntil, body.reason, now);
      RecordedEventExplains(item, next.row, event);
    }
  }

  /**
   A row changed as one legal event says is explained by its log with that event recorded
   exactly when the event is not older than the newest one.
   */
  lemma RecordedEventExplains(item: Item, row: Row, event: Event)
    requires Explained(item)
    requires MayFollow(Replay(item.log), event)
    requires LifeOf(row) == Apply(Replay(item.log), event)
    requires event.kind == PutOff && item.row.status == Snoozed ==> event.snoozedUntil != item.row.snoozedUntil
    ensures Explained(Item(row, Record(item.log, event))) <==> Timely(item.log, event.occurredAt)
  {
    var log := Record(item.log, event);
    LegalLife(item.log);
    if Timely(item.log, event.occurredAt) {
      RecordTimely(item.log, event);
    } else {
      RecordLate(item.log, event);
      if Legal(log) {
        LegalLife(log);
        if item.row.status == Done {
          ClosingEvent(item.log);
        }
      }
    }
  }

  lemma RevertExplained(item: Item, body: Body, user: int, now: int)
    requires Explained(item)
    requires Revert(item, body, user, now).Accepted?
    ensures Explained(Revert(item, body, user, now).item)
  {
    var earlier := Before(item.log);
    LegalLife(item.log);
    if |item.log| > 1 {
      LegalLife(earlier);
      if Replay(earlier).status == Done {
        ClosingEvent(earlier);
      }
    }
  }

  /** An undo of the change that led from `item` to `next`: the status it names and the date it must not repeat. */
  predicate UndoNames(undo: Body, item: Item, next: Item) {
    && undo.revert
    && ValidShape(undo)
    && undo.status == item.row.status
    && (next.row.status == Snoozed && undo.status == Snoozed ==> undo.snoozedUntil != next.row.snoozedUntil)
  }

  /**
   Undo is an inverse: right after a change that recorded an event, the same user's undo is
   accepted exactly when it names the previous state inside the window, and it then gives back
   every lifecycle column and the whole log. Nothing names RESOLVED, so leaving it is final.
   */
  lemma UndoInverts(item: Item, body: Body, user: int, now: int, maxDays: int, undo: Body, later: int)
    requires Explained(item) && Timely(item.log, now)
    requires Records(item, body) && undo.revert
    requires Transition(item, body, user, now, maxDays).Accepted?
    ensures var next := Transition(item, body, user, now, maxDays).item;
            var undone := Transition(next, undo, user, later, maxDays);
            && (undone.Accepted? <==>
                  UndoNames(undo, item, next) && now >= later - REVERT_WINDOW_MINUTES * MINUTE_MS)
            && (undone.Accepted? ==> LifeOf(undone.item.row) == LifeOf(item.row) && undone.item.log == item.log)
            && (item.row.status == Resolved ==> !undone.Accepted?)
  {
    var next := Transition(item, body, user, now, maxDays).item;
    ChangeRecorded(item, body, user, now, maxDays);
    assert Transition(next, undo, user, later, maxDays).Accepted? ==> ValidShape(undo);
    if ValidShape(undo) {
      RevertInverts(item, next, undo, user, later);
    }
  }

  /** What a change that records an event leaves behind: its event last, and the status it asked for. */
  lemma ChangeRecorded(item: Item, body: Body, user: int, now: int, maxDays: int)
    requires Explained(item) && Timely(item.log, now) && Records(item, body)
    requires Transition(item, body, user, now, maxDays).Accepted?
    ensures var next := Transition(item, body, user, now, maxDays).item;
            && next.log != [] && Before(next.log) == item.log
            && Latest(next.log).actor == User(user) && Latest(next.log).occurredAt == now
            && next.row.reopenCount == item.row.reopenCount + (if Latest(next.log).kind == Reopened then 1 else 0)
            && next.row.status == body.status
            && (body.status == item.row.status ==>
                  body.status in {Snoozed, Dismissed} && next.row.snoozedUntil == body.snoozedUntil)
  {
    var kind := TransitionEvent(item.row.status, body.status).value;
    var event := Event(kind, User(user), body.status, item.row.priority, item.row.impact,
                       body.snoozedUntil, body.reason, now);
    RecordTimely(item.log, event);
  }

  lemma RevertInverts(item: Item, next: Item, undo: Body, user: int, later: int)
    requires Explained(item) && next.log != [] && Before(next.log) == item.log
    requires undo.revert && ValidShape(undo)
    requires Latest(next.log).actor == User(user)
    requires next.row.reopenCount == item.row.reopenCount + (if Latest(next.log).kind == Reopened then 1 else 0)
    requires next.row.status == item.row.status ==> item.row.status in {Snoozed, Dismissed}
    ensures Revert(next, undo, user, later).Accepted? <==>
              UndoNames(undo, item, next) && Latest(next.log).occurredAt >= later - REVERT_WINDOW_MINUTES * MINUTE_MS
    ensures Revert(next, undo, user, later).Accepted? ==>
              && LifeOf(Revert(next, undo, user, later).item.row) == LifeOf(item.row)
              && Revert(next, undo, user, later).item.log == item.log
  {
    LegalLife(item.log);
    LastEvents(item.log);
    if item.row.status == Done {
      ClosingEvent(item.log);
    }
  }

  /** In a legal log only its own events close or put off an action, and the last of them says when. */
  lemma LastEvents(log: seq<Event>)
    requires Legal(log)
    ensures Replay(log).status == Snoozed ==> Replay(log).snoozedUntil == Latest(log).snoozedUntil
    ensures Replay(log).status == Dismissed ==>
              Latest(log).kind == Rejected && Replay(log).closedAt == Some(Latest(log).occurredAt)
  {
  }

  /** A request that asks for what the row already is, with at most a note, can be repeated. */
  lemma NotedTwice(item: Item, body: Body, note: Row)
    requires IsNoteOnly(item.row, body) || RepeatsDismissal(item, body)
    requires note == WithNote(item.row, body)
    ensures IsNoteOnly(note, body) || RepeatsDismissal(item.(row := note), body)
    ensures WithNote(note, body) == note
  {
  }

  /** A change that was recorded reads as one already made. */
  lemma RecordedReadsAsMade(item: Item, body: Body, user: int, now: int, maxDays: int)
    requires Explained(item) && Timely(item.log, now)
    requires !body.revert && ValidShape(body) && body.status != Open
    requires !IsNoteOnly(item.row, body) && !RepeatsDismissal(item, body)
    requires Transition(item, body, user, now, maxDays).Accepted?
    ensures var next := Transition(item, body, user, now, maxDays).item;
            && (IsNoteOnly(next.row, body) || RepeatsDismissal(next, body))
            && WithNote(next.row, body) == next.row
  {
    var kind := TransitionEvent(item.row.status, body.status).value;
    var event := Event(kind, User(user), body.status, item.row.priority, item.row.impact,
                       body.snoozedUntil, body.reason, now);
    RecordTimely(item.log, event);
  }

  /** Sending the same change twice records it once: the second request moves nothing and records nothing. */
  lemma SameChangeTwice(item: Item, body: Body, user: int, now: int, again: int, later: int, maxDays: int)
    requires Explained(item) && Timely(item.log, now)
    requires !body.revert
    requires Transition(item, body, user, now, maxDays).Accepted?
    ensures var next := Transition(item, body, user, now, maxDays).item;
            var repeated := Transition(next, body, again, later, maxDays);
            repeated.Accepted? && repeated.item.log == next.log && LifeOf(repeated.item.row) == LifeOf(next.row)
  {
    if IsNoteOnly(item.row, body) || RepeatsDismissal(item, body) {
      NotedTwice(item, body, WithNote(item.row, body));
    } else if body.status != Open {
      RecordedReadsAsMade(item, body, user, now, maxDays);
    } else {
      LegalLife(item.log);
    }
  }

  /**
   The same undo sent twice is refused the second time unless the state it restored was itself
   reached from the same status: then it also takes back an earlier change.
   */
  lemma SameUndoTwice(item: Item, undo: Body, user: int, now: int, later: int, maxDays: int)
    requires Explained(item) && undo.revert
    requires Transition(item, undo, user, now, maxDays).Accepted?
    ensures var next := Transition(item, undo, user, now, maxDays).item;
            Transition(next, undo, user, later, maxDays).Accepted? <==>
              && |item.log| > 2
              && var earlier := Before(item.log);
              && Latest(earlier).actor == User(user)
              && Latest(earlier).occurredAt >= later - REVERT_WINDOW_MINUTES * MINUTE_MS
              && Latest(Before(earlier)).status == undo.status
              && Latest(earlier).kind in {Rejected, PutOff}
              && (Latest(earlier).kind == PutOff ==> Latest(earlier).snoozedUntil != undo.snoozedUntil)
  {
    var next := Transition(item, undo, user, now, maxDays).item;
    LegalLife(item.log);
    if |item.log| > 1 {
      LegalLife(next.log);
      LastEvents(next.log);
    }
    if |item.log| > 2 {
      LegalLife(Before(next.log));
    }
  }

  /** Two dismissals with different reasons, then done: the undo sent twice takes back two changes. */
  lemma SameUndoTwiceExample() returns (item: Item, undo: Body)
    ensures Explained(item) && undo.revert
    ensures var first := Transition(item, undo, 7, 40, 30);
            first.Accepted? && Transition(first.item, undo, 7, 41, 30).Accepted?
  {
    var start := Event(Opened, System, Open, 0, 0, None, None, 0);
    var rejected := Event(Rejected, User(7), Dismissed, 0, 0, None, Some(0), 10);
    var rejectedAgain := rejected.(reason := Some(1), occurredAt := 20);
    var finished := Event(Finished, User(7), Done, 0, 0, None, None, 30);
    var l1, l2, l3 := [start], [start, rejected], [start, rejected, rejectedAgain];
    var log := [start, rejected, rejectedAgain, finished];
    assert Before(log) == l3 && Before(l3) == l2 && Before(l2) == l1 && Before(l1) == [];
    assert Legal(l1) && Legal(l2) && Legal(l3);
    item := Item(Row(Done, 0, 0, 0, None, Some(30), None, None, 0, None), log);
    undo := Body(Dismissed, None, None, None, true);
  }
}
