/** From outbox events to the two batches of a flush: selection, classification and assembly. */
module AlertBatch {
  import opened Wrappers
  import opened Sequences
  import opened AlertPayloads

  /** A display name and its place in the base-sensitivity collation. */
  datatype Name = Name(text: string, place: int)

  datatype App = App(id: Id, name: Option<Name>, store: int, country: int, isCompetitor: bool, primaryAppId: Option<Id>)

  datatype BatchApp = BatchApp(id: Id, name: Option<Name>, store: int, country: int)

  datatype OutboxEvent = OutboxEvent(id: Id, appId: Option<Id>, payload: Payload, createdAt: int)

  datatype SkipReason =
    | AppMismatch
    | UnresolvedApp
    | CompetitorOwnedSignal
    | OrphanCompetitor
    | UnresolvedPrimary
    | InvalidPrimary
    | SerpWithoutPrimary
    | UnsupportedEvent

  datatype OwnedSignal = OwnedSignal(event: OutboxEvent, primaries: seq<App>)

  datatype CompetitorSignal = CompetitorSignal(event: OutboxEvent, competitor: App, primary: App)

  datatype InvalidSignal = InvalidSignal(event: OutboxEvent, reason: SkipReason)

  /** The apps and keyword trackers a batch is resolved against. */
  datatype Lookup = Lookup(appById: map<Id, App>, serpPrimaries: map<Id, seq<Id>>)

  ghost predicate Coherent(lookup: Lookup) {
    forall id :: id in lookup.appById ==> lookup.appById[id].id == id
  }

  function ToBatchApp(app: App): BatchApp {
    BatchApp(app.id, app.name, app.store, app.country)
  }

  /** `compareNames(left, right) <= 0`: by name, apps without a name last, then by id. */
  predicate NameLe(left: BatchApp, right: BatchApp) {
    if left.name.None? != right.name.None? then right.name.None?
    else if left.name.Some? && left.name.value.place != right.name.value.place
    then left.name.value.place < right.name.value.place
    else left.id <= right.id
  }

  predicate AppLe(left: App, right: App) {
    NameLe(ToBatchApp(left), ToBatchApp(right))
  }

  /** `compareOutboxEvents(left, right) <= 0` for events that carry their row's id. */
  predicate EventLe(left: OutboxEvent, right: OutboxEvent) {
    left.createdAt < right.createdAt || (left.createdAt == right.createdAt && left.id <= right.id)
  }

  lemma OrdersAreTotal()
    ensures TotalPreorder(EventLe) && TotalPreorder(AppLe)
  {
  }

  // The deepest rating drop of an app's day

  function DropDay(payload: Payload): (Id, int)
    requires payload.RatingDropped?
  {
    (payload.app, payload.toDate)
  }

  predicate IsDropOf(event: OutboxEvent, day: (Id, int)) {
    event.payload.RatingDropped? && DropDay(event.payload) == day
  }

  /** The place of the first of the deepest drops of a day. */
  function DeepestPlace(events: seq<OutboxEvent>, day: (Id, int)): (place: Option<nat>)
    ensures place.Some? ==> place.value < |events| && IsDropOf(events[place.value], day)
  {
    if events == [] then None
    else
      var kept := DeepestPlace(Init(events), day);
      if IsDropOf(Last(events), day)
         && (kept.None? || Last(events).payload.dropTenths > Init(events)[kept.value].payload.dropTenths)
      then Some(|events| - 1)
      else kept
  }

  /** No drop of the day is deeper, and none before it as deep. */
  lemma {:induction false} DeepestOfDay(events: seq<OutboxEvent>, day: (Id, int), i: nat)
    requires i < |events| && IsDropOf(events[i], day)
    ensures var place := DeepestPlace(events, day);
            && place.Some?
            && events[i].payload.dropTenths <= events[place.value].payload.dropTenths
            && (i < place.value ==> events[i].payload.dropTenths < events[place.value].payload.dropTenths)
  {
    if i < |events| - 1 {
      DeepestOfDay(Init(events), day, i);
    }
  }

  /** The event at a place stays: it is no rating drop, or the deepest of its day stands there. */
  predicate Stays(events: seq<OutboxEvent>, i: nat)
    requires i < |events|
  {
    events[i].payload.RatingDropped? ==> DeepestPlace(events, DropDay(events[i].payload)) == Some(i)
  }

  /** What stays of the first `n` events. */
  function Selected(events: seq<OutboxEvent>, n: nat): seq<OutboxEvent>
    requires n <= |events|
  {
    if n == 0 then []
    else if Stays(events, n - 1) then Selected(events, n - 1) + [events[n - 1]]
    else Selected(events, n - 1)
  }

  type DropDays = map<(Id, int), nat>

  function PlaceIn(deepest: DropDays, day: (Id, int)): Option<nat> {
    if day in deepest then Some(deepest[day]) else None
  }

  /** A map that holds the place of the deepest drop of every day that has one. */
  ghost predicate HoldsDeepest(deepest: DropDays, events: seq<OutboxEvent>) {
    forall day :: PlaceIn(deepest, day) == DeepestPlace(events, day)
  }

  /** One more event takes its day's place when it is deeper than what is there. */
  lemma DeepestGrows(deepest: DropDays, before: seq<OutboxEvent>, event: OutboxEvent, takes: bool)
    requires HoldsDeepest(deepest, before)
    requires takes <==>
             && event.payload.RatingDropped?
             && var place := DeepestPlace(before, DropDay(event.payload));
                place.None? || event.payload.dropTenths > before[place.value].payload.dropTenths
    ensures HoldsDeepest(if takes then deepest[DropDay(event.payload) := |before|] else deepest, before + [event])
  {
    var next := if takes then deepest[DropDay(event.payload) := |before|] else deepest;
    assert Init(before + [event]) == before && Last(before + [event]) == event;
    forall day
      ensures PlaceIn(next, day) == DeepestPlace(before + [event], day)
    {
      assert PlaceIn(deepest, day) == DeepestPlace(before, day);
    }
  }

  /** The first loop: the deepest drop of each day. */
  method DeepestByDay(events: seq<OutboxEvent>) returns (deepest: DropDays)
    ensures HoldsDeepest(deepest, events)
  {
    deepest := map[];
    for i := 0 to |events|
      invariant HoldsDeepest(deepest, events[..i])
    {
      assert events[..i + 1] == events[..i] + [events[i]];
      var event := events[i];
      var takes := false;
      if event.payload.RatingDropped? {
        var day := DropDay(event.payload);
        assert PlaceIn(deepest, day) == DeepestPlace(events[..i], day);
        takes := day !in deepest || event.payload.dropTenths > events[deepest[day]].payload.dropTenths;
      }
      DeepestGrows(deepest, events[..i], event, takes);
      if takes {
        deepest := deepest[DropDay(event.payload) := i];
      }
    }
    assert events[..|events|] == events;
  }

  /** Keeps one rating drop per app and day; the rest of the events stay where they are. */
  method WithDeepestRatingDrops(events: seq<OutboxEvent>) returns (kept: seq<OutboxEvent>)
    ensures kept == Selected(events, |events|)
  {
    var deepest := DeepestByDay(events);
    kept := [];
    for i := 0 to |events|
      invariant kept == Selected(events, i)
    {
      var event := events[i];
      if event.payload.RatingDropped? {
        var day := DropDay(event.payload);
        assert PlaceIn(deepest, day) == DeepestPlace(events, day);
        DeepestOfDay(events, day, i);
        if deepest[day] == i {
          kept := kept + [event];
        }
      } else {
        kept := kept + [event];
      }
    }
  }

  predicate OneDropADay(events: seq<OutboxEvent>) {
    forall i, j :: 0 <= i < j < |events| ==> SeparateDays(events[i], events[j])
  }

  predicate SeparateDays(left: OutboxEvent, right: OutboxEvent) {
    left.payload.RatingDropped? && right.payload.RatingDropped? ==> DropDay(left.payload) != DropDay(right.payload)
  }

  lemma {:induction false} SelectedFrom(events: seq<OutboxEvent>, n: nat, k: nat) returns (i: nat)
    requires n <= |events| && k < |Selected(events, n)|
    ensures i < n && Stays(events, i) && events[i] == Selected(events, n)[k]
  {
    if k == |Selected(events, n)| - 1 && Stays(events, n - 1) {
      i := n - 1;
    } else {
      i := SelectedFrom(events, n - 1, k);
    }
  }

  /** A selection has one drop of an app and day, also when events are alike. */
  lemma {:induction false} SelectionIsOneADay(events: seq<OutboxEvent>, n: nat)
    requires n <= |events|
    ensures OneDropADay(Selected(events, n))
  {
    if n > 0 {
      SelectionIsOneADay(events, n - 1);
      var before := Selected(events, n - 1);
      if Stays(events, n - 1) {
        forall k | 0 <= k < |before|
          ensures SeparateDays(before[k], events[n - 1])
        {
          var i := SelectedFrom(events, n - 1, k);
        }
      }
    }
  }

  lemma SameDaySamePlace(events: seq<OutboxEvent>, i: nat, j: nat)
    requires OneDropADay(events) && i < |events| && j < |events|
    requires events[i].payload.RatingDropped? && events[j].payload.RatingDropped?
    requires DropDay(events[i].payload) == DropDay(events[j].payload)
    ensures i == j
  {
  }

  lemma {:induction false} OneADayIsSelected(events: seq<OutboxEvent>, n: nat)
    requires OneDropADay(events) && n <= |events|
    ensures Selected(events, n) == events[..n]
  {
    if n > 0 {
      OneADayIsSelected(events, n - 1);
      var event := events[n - 1];
      if event.payload.RatingDropped? {
        var day := DropDay(event.payload);
        DeepestOfDay(events, day, n - 1);
        SameDaySamePlace(events, DeepestPlace(events, day).value, n - 1);
      }
      assert events[..n] == events[..n - 1] + [event];
    }
  }

  /** Selecting again from what is left of a selection changes nothing. */
  lemma DeepestSelectionIsStable(events: seq<OutboxEvent>, p: OutboxEvent -> bool)
    ensures var left := Filter(p, Selected(events, |events|));
            OneDropADay(left) && Selected(left, |left|) == left
  {
    var selected := Selected(events, |events|);
    SelectionIsOneADay(events, |events|);
    FilterSorted((a: OutboxEvent, b: OutboxEvent) => SeparateDays(a, b), p, selected);
    var left := Filter(p, selected);
    assert OneDropADay(left);
    OneADayIsSelected(left, |left|);
    assert left[..|left|] == left;
  }

  // Classification

  /** What one event becomes: part of a batch, skipped with reasons, or (SERP entrants only) both. */
  datatype Verdict = Verdict(owned: Option<OwnedSignal>, competitor: Option<CompetitorSignal>, reasons: seq<SkipReason>)

  function Skip(reason: SkipReason): Verdict {
    Verdict(None, None, [reason])
  }

  function Owned(event: OutboxEvent, app: App): Verdict {
    Verdict(Some(OwnedSignal(event, [app])), None, [])
  }

  function ClassifyScoped(event: OutboxEvent, app: App, lookup: Lookup): Verdict {
    if !app.isCompetitor then Owned(event, app)
    else if app.primaryAppId.None? then Skip(OrphanCompetitor)
    else if app.primaryAppId.value !in lookup.appById then Skip(UnresolvedPrimary)
    else
      var primary := lookup.appById[app.primaryAppId.value];
      if primary.isCompetitor then Skip(InvalidPrimary)
      else Verdict(None, Some(CompetitorSignal(event, app, primary)), [])
  }

  function ClassifyAppEvent(event: OutboxEvent, lookup: Lookup): Verdict {
    if AppOf(event.payload).None? || event.appId != AppOf(event.payload) then Skip(AppMismatch)
    else if event.appId.value !in lookup.appById then Skip(UnresolvedApp)
    else
      var app := lookup.appById[event.appId.value];
      if event.payload.MetadataChanged? || IsAvailability(event.payload) then ClassifyScoped(event, app, lookup)
      else if app.isCompetitor then Skip(CompetitorOwnedSignal)
      else Owned(event, app)
  }

  /** A list without its repetitions, each element where it first occurs. */
  function Unique<T(==, !new)>(s: seq<T>): (r: seq<T>)
    ensures forall x :: x in r <==> x in s
    ensures Sequences.Distinct(r)
  {
    if s == [] then []
    else
      assert s == Init(s) + [Last(s)];
      var front := Unique(Init(s));
      if Last(s) in front then front else front + [Last(s)]
  }

  /** The reasons one id of a tracker is skipped for: none, or one. */
  function PrimaryReasons(id: Id, lookup: Lookup): seq<SkipReason> {
    if id !in lookup.appById then [UnresolvedPrimary]
    else if lookup.appById[id].isCompetitor then [InvalidPrimary]
    else []
  }

  function SerpReasons(ids: seq<Id>, lookup: Lookup): seq<SkipReason> {
    if ids == [] then [] else SerpReasons(Init(ids), lookup) + PrimaryReasons(Last(ids), lookup)
  }

  function SerpPrimaries(ids: seq<Id>, lookup: Lookup): seq<App> {
    if ids == [] then []
    else if PrimaryReasons(Last(ids), lookup) == [] then SerpPrimaries(Init(ids), lookup) + [lookup.appById[Last(ids)]]
    else SerpPrimaries(Init(ids), lookup)
  }

  function SerpIds(event: OutboxEvent, lookup: Lookup): seq<Id>
    requires event.payload.SerpEntrant?
  {
    var keyword := event.payload.keyword.id;
    Unique(if keyword in lookup.serpPrimaries then lookup.serpPrimaries[keyword] else [])
  }

  function ClassifySerp(event: OutboxEvent, lookup: Lookup): Verdict
    requires event.payload.SerpEntrant?
  {
    var ids := SerpIds(event, lookup);
    if ids == [] then Skip(SerpWithoutPrimary)
    else
      var primaries := SerpPrimaries(ids, lookup);
      Verdict(if primaries == [] then None else Some(OwnedSignal(event, SortBy(AppLe, primaries))),
              None, SerpReasons(ids, lookup))
  }

  function Classify(event: OutboxEvent, lookup: Lookup): Verdict {
    if event.payload.SerpEntrant? then ClassifySerp(event, lookup)
    else if event.payload.DigestWeekly? then Skip(UnsupportedEvent)
    else ClassifyAppEvent(event, lookup)
  }

  function OwnedOf(events: seq<OutboxEvent>, lookup: Lookup): seq<OwnedSignal> {
    if events == [] then []
    else
      var verdict := Classify(Last(events), lookup);
      if verdict.owned.Some? then OwnedOf(Init(events), lookup) + [verdict.owned.value]
      else OwnedOf(Init(events), lookup)
  }

  function CompetitorsOf(events: seq<OutboxEvent>, lookup: Lookup): seq<CompetitorSignal> {
    if events == [] then []
    else
      var verdict := Classify(Last(events), lookup);
      if verdict.competitor.Some? then CompetitorsOf(Init(events), lookup) + [verdict.competitor.value]
      else CompetitorsOf(Init(events), lookup)
  }

  function Blamed(event: OutboxEvent, reasons: seq<SkipReason>): (r: seq<InvalidSignal>)
    ensures |r| == |reasons|
    ensures forall i :: 0 <= i < |r| ==> r[i] == InvalidSignal(event, reasons[i])
  {
    seq(|reasons|, i requires 0 <= i < |reasons| => InvalidSignal(event, reasons[i]))
  }

  function InvalidOf(events: seq<OutboxEvent>, lookup: Lookup): seq<InvalidSignal> {
    if events == [] then []
    else InvalidOf(Init(events), lookup) + Blamed(Last(events), Classify(Last(events), lookup).reasons)
  }

  /** One more event adds what its verdict says. */
  lemma NextVerdict(events: seq<OutboxEvent>, i: nat, lookup: Lookup)
    requires i < |events|
    ensures var verdict := Classify(events[i], lookup);
            var before, all := events[..i], events[..i + 1];
            && OwnedOf(all, lookup) ==
               (if verdict.owned.Some? then OwnedOf(before, lookup) + [verdict.owned.value] else OwnedOf(before, lookup))
            && CompetitorsOf(all, lookup) ==
               (if verdict.competitor.Some? then CompetitorsOf(before, lookup) + [verdict.competitor.value]
                else CompetitorsOf(before, lookup))
            && InvalidOf(all, lookup) == InvalidOf(before, lookup) + Blamed(events[i], verdict.reasons)
  {
    assert Init(events[..i + 1]) == events[..i] && Last(events[..i + 1]) == events[i];
  }

  /** One more tracker is a primary or a reason. */
  lemma NextPrimary(event: OutboxEvent, ids: seq<Id>, i: nat, lookup: Lookup)
    requires i < |ids|
    ensures var reasons := PrimaryReasons(ids[i], lookup);
            && SerpPrimaries(ids[..i + 1], lookup) ==
               (if reasons == [] then SerpPrimaries(ids[..i], lookup) + [lookup.appById[ids[i]]]
                else SerpPrimaries(ids[..i], lookup))
            && Blamed(event, SerpReasons(ids[..i + 1], lookup)) ==
               (if reasons == [] then Blamed(event, SerpReasons(ids[..i], lookup))
                else Blamed(event, SerpReasons(ids[..i], lookup)) + [InvalidSignal(event, reasons[0])])
  {
    assert Init(ids[..i + 1]) == ids[..i] && Last(ids[..i + 1]) == ids[i];
    var before, all := SerpReasons(ids[..i], lookup), SerpReasons(ids[..i + 1], lookup);
    assert all == before + PrimaryReasons(ids[i], lookup);
    if PrimaryReasons(ids[i], lookup) == [] {
      assert all == before;
    }
  }

  /** The primaries and the blamed entries of the first `n` trackers. */
  predicate ListsFirst(primaries: seq<App>, blamed: seq<InvalidSignal>, event: OutboxEvent, ids: seq<Id>, n: nat,
                       lookup: Lookup)
  {
    && n <= |ids|
    && primaries == SerpPrimaries(ids[..n], lookup)
    && blamed == Blamed(event, SerpReasons(ids[..n], lookup))
  }

  lemma ListsNext(primaries: seq<App>, blamed: seq<InvalidSignal>, event: OutboxEvent, ids: seq<Id>, n: nat,
                  lookup: Lookup)
    requires ListsFirst(primaries, blamed, event, ids, n, lookup) && n < |ids|
    ensures var reasons := PrimaryReasons(ids[n], lookup);
            if reasons == [] then ListsFirst(primaries + [lookup.appById[ids[n]]], blamed, event, ids, n + 1, lookup)
            else ListsFirst(primaries, blamed + [InvalidSignal(event, reasons[0])], event, ids, n + 1, lookup)
  {
    NextPrimary(event, ids, n, lookup);
  }

  lemma ListsAll(primaries: seq<App>, blamed: seq<InvalidSignal>, event: OutboxEvent, ids: seq<Id>, lookup: Lookup)
    requires ListsFirst(primaries, blamed, event, ids, |ids|, lookup)
    ensures primaries == SerpPrimaries(ids, lookup) && blamed == Blamed(event, SerpReasons(ids, lookup))
  {
    assert ids[..|ids|] == ids;
  }

  function CountReason(invalid: seq<InvalidSignal>, reason: SkipReason): nat {
    if invalid == [] then 0
    else CountReason(Init(invalid), reason) + if Last(invalid).reason == reason then 1 else 0
  }

  /** The result a classification builds up. */
  class BatchClassification {
    var owned: seq<OwnedSignal>
    var competitors: seq<CompetitorSignal>
    var invalid: seq<InvalidSignal>
    var skipped: map<SkipReason, nat>

    /** The counts are those of the invalid entries. */
    ghost predicate Counted()
      reads this
    {
      && (forall r: SkipReason :: r in skipped)
      && (forall r: SkipReason :: skipped[r] == CountReason(invalid, r))
    }

    constructor ()
      ensures owned == [] && competitors == [] && invalid == [] && Counted()
    {
      owned, competitors, invalid := [], [], [];
      skipped := map[
        AppMismatch := 0, UnresolvedApp := 0, CompetitorOwnedSignal := 0, OrphanCompetitor := 0,
        UnresolvedPrimary := 0, InvalidPrimary := 0, SerpWithoutPrimary := 0, UnsupportedEvent := 0
      ];
      new;
      forall r: SkipReason
        ensures r in skipped
      {
        match r {
          case AppMismatch => case UnresolvedApp => case CompetitorOwnedSignal => case OrphanCompetitor =>
          case UnresolvedPrimary => case InvalidPrimary => case SerpWithoutPrimary => case UnsupportedEvent =>
        }
      }
    }

    method AddInvalid(event: OutboxEvent, reason: SkipReason)
      requires Counted()
      modifies this`invalid, this`skipped
      ensures Counted() && invalid == old(invalid) + [InvalidSignal(event, reason)]
    {
      invalid := invalid + [InvalidSignal(event, reason)];
      assert Init(invalid) == old(invalid);
      skipped := skipped[reason := skipped[reason] + 1];
    }

    /** `classifySerp`, for the distinct trackers of the keyword. */
    method AddSerp(event: OutboxEvent, lookup: Lookup)
      requires Counted() && event.payload.SerpEntrant?
      modifies this`owned, this`invalid, this`skipped
      ensures Counted()
      ensures invalid == old(invalid) + Blamed(event, ClassifySerp(event, lookup).reasons)
      ensures var verdict := ClassifySerp(event, lookup);
              owned == if verdict.owned.Some? then old(owned) + [verdict.owned.value] else old(owned)
    {
      var ids := SerpIds(event, lookup);
      if ids == [] {
        AddInvalid(event, SerpWithoutPrimary);
        return;
      }
      var primaries := AddPrimaries(event, ids, lookup);
      if |primaries| > 0 {
        owned := owned + [OwnedSignal(event, SortBy(AppLe, primaries))];
      }
    }

    method AddPrimaries(event: OutboxEvent, ids: seq<Id>, lookup: Lookup) returns (primaries: seq<App>)
      requires Counted()
      modifies this`invalid, this`skipped
      ensures Counted() && primaries == SerpPrimaries(ids, lookup)
      ensures invalid == old(invalid) + Blamed(event, SerpReasons(ids, lookup))
    {
      primaries := [];
      ghost var blamed: seq<InvalidSignal> := [];
      for i := 0 to |ids|
        invariant Counted()
        invariant ListsFirst(primaries, blamed, event, ids, i, lookup)
        invariant invalid == old(invalid) + blamed
      {
        ListsNext(primaries, blamed, event, ids, i, lookup);
        if ids[i] !in lookup.appById {
          AddInvalid(event, UnresolvedPrimary);
          blamed := blamed + [InvalidSignal(event, UnresolvedPrimary)];
        } else if lookup.appById[ids[i]].isCompetitor {
          AddInvalid(event, InvalidPrimary);
          blamed := blamed + [InvalidSignal(event, InvalidPrimary)];
        } else {
          primaries := primaries + [lookup.appById[ids[i]]];
        }
      }
      ListsAll(primaries, blamed, event, ids, lookup);
    }

    method AddAppEvent(event: OutboxEvent, lookup: Lookup)
      requires Counted()
      modifies this
      ensures Counted()
      ensures var verdict := ClassifyAppEvent(event, lookup);
              && owned == (if verdict.owned.Some? then old(owned) + [verdict.owned.value] else old(owned))
              && competitors == (if verdict.competitor.Some? then old(competitors) + [verdict.competitor.value]
                                 else old(competitors))
              && invalid == old(invalid) + Blamed(event, verdict.reasons)
    {
      var verdict := ClassifyAppEvent(event, lookup);
      if verdict.owned.Some? {
        owned := owned + [verdict.owned.value];
      } else if verdict.competitor.Some? {
        competitors := competitors + [verdict.competitor.value];
      } else {
        AddInvalid(event, verdict.reasons[0]);
      }
    }

    method AddEvent(event: OutboxEvent, lookup: Lookup)
      requires Counted()
      modifies this
      ensures Counted()
      ensures var verdict := Classify(event, lookup);
              && owned == (if verdict.owned.Some? then old(owned) + [verdict.owned.value] else old(owned))
              && competitors == (if verdict.competitor.Some? then old(competitors) + [verdict.competitor.value]
                                 else old(competitors))
              && invalid == old(invalid) + Blamed(event, verdict.reasons)
    {
      if event.payload.SerpEntrant? {
        AddSerp(event, lookup);
      } else if event.payload.DigestWeekly? {
        AddInvalid(event, UnsupportedEvent);
      } else {
        AddAppEvent(event, lookup);
      }
    }

    /** `classifyBatch`: the events in their stored order, each sent where its verdict says. */
    method ClassifyBatch(events: seq<OutboxEvent>, lookup: Lookup)
      requires Counted() && owned == [] && competitors == [] && invalid == []
      modifies this
      ensures Counted()
      ensures var sorted := SortBy(EventLe, events);
              && owned == OwnedOf(sorted, lookup)
              && competitors == CompetitorsOf(sorted, lookup)
              && invalid == InvalidOf(sorted, lookup)
    {
      var sorted := SortBy(EventLe, events);
      for i := 0 to |sorted|
        invariant Counted()
        invariant owned == OwnedOf(sorted[..i], lookup)
        invariant competitors == CompetitorsOf(sorted[..i], lookup)
        invariant invalid == InvalidOf(sorted[..i], lookup)
      {
        NextVerdict(sorted, i, lookup);
        AddEvent(sorted[i], lookup);
      }
      assert sorted[..|sorted|] == sorted;
    }
  }

  // What classification conserves

  /** An owned signal as classification makes it: apps of the lookup, each once, none a competitor. */
  ghost predicate WellFormedOwned(signal: OwnedSignal, lookup: Lookup) {
    && signal.primaries != []
    && Sequences.Distinct(signal.primaries)
    && (forall a :: a in signal.primaries ==> a.id in lookup.appById && lookup.appById[a.id] == a && !a.isCompetitor)
    && !signal.event.payload.DigestWeekly?
  }

  ghost predicate WellFormedCompetitor(signal: CompetitorSignal, lookup: Lookup) {
    && signal.competitor.id in lookup.appById && lookup.appById[signal.competitor.id] == signal.competitor
    && signal.primary.id in lookup.appById && lookup.appById[signal.primary.id] == signal.primary
    && signal.competitor.isCompetitor && !signal.primary.isCompetitor
    && (signal.event.payload.MetadataChanged? || IsAvailability(signal.event.payload))
  }

  lemma {:induction false} SerpPrimariesWellFormed(ids: seq<Id>, lookup: Lookup)
    requires Coherent(lookup) && Sequences.Distinct(ids)
    ensures forall a :: a in SerpPrimaries(ids, lookup) ==>
              a.id in ids && a.id in lookup.appById && lookup.appById[a.id] == a && !a.isCompetitor
    ensures Sequences.Distinct(SerpPrimaries(ids, lookup))
    ensures |SerpPrimaries(ids, lookup)| + |SerpReasons(ids, lookup)| == |ids|
  {
    if ids != [] {
      SerpPrimariesWellFormed(Init(ids), lookup);
      assert ids == Init(ids) + [Last(ids)];
      assert Last(ids) !in Init(ids);
    }
  }

  /**
   No event is lost and none is counted twice: a verdict is one owned signal, one competitor
   signal or skip reasons, and only a SERP entrant can be both owned and skipped, with one entry
   for each tracker of its keyword.
   */
  lemma VerdictConserves(event: OutboxEvent, lookup: Lookup)
    requires Coherent(lookup)
    ensures var verdict := Classify(event, lookup);
            && (verdict.owned.Some? || verdict.competitor.Some? || verdict.reasons != [])
            && !(verdict.owned.Some? && verdict.competitor.Some?)
            && (verdict.competitor.Some? ==> verdict.reasons == [])
            && (verdict.owned.Some? && verdict.reasons != [] ==> event.payload.SerpEntrant?)
            && (event.payload.SerpEntrant? && SerpIds(event, lookup) != [] ==>
                  |verdict.reasons| + (if verdict.owned.Some? then |verdict.owned.value.primaries| else 0)
                  == |SerpIds(event, lookup)|)
            && (!event.payload.SerpEntrant? && !verdict.owned.Some? && !verdict.competitor.Some? ==>
                  |verdict.reasons| == 1)
            && (verdict.owned.Some? ==>
                  verdict.owned.value.event == event && WellFormedOwned(verdict.owned.value, lookup))
            && (verdict.competitor.Some? ==>
                  verdict.competitor.value.event == event && WellFormedCompetitor(verdict.competitor.value, lookup))
  {
    if event.payload.SerpEntrant? {
      var primaries := SerpPrimaries(SerpIds(event, lookup), lookup);
      SerpPrimariesWellFormed(SerpIds(event, lookup), lookup);
      SortPermutes(AppLe, primaries);
      DistinctArrangement(primaries, SortBy(AppLe, primaries));
    } else if Classify(event, lookup).competitor.Some? {
      var app := lookup.appById[event.appId.value];
      assert lookup.appById[app.primaryAppId.value].id == app.primaryAppId.value;
    }
  }

  function Reasons(event: OutboxEvent, lookup: Lookup): seq<SkipReason> {
    Classify(event, lookup).reasons
  }

  predicate IsOwned(event: OutboxEvent, lookup: Lookup) {
    Classify(event, lookup).owned.Some?
  }

  predicate IsCompetitorSignal(event: OutboxEvent, lookup: Lookup) {
    Classify(event, lookup).competitor.Some?
  }

  /**
   The three lists of a classification, read back: the signals' events are the sorted events
   that belong there, in order; the invalid entries of an event are its reasons.
   */
  lemma {:induction false} ClassificationConserves(events: seq<OutboxEvent>, lookup: Lookup)
    requires Coherent(lookup)
    ensures Map((s: OwnedSignal) => s.event, OwnedOf(events, lookup)) == Filter(e => IsOwned(e, lookup), events)
    ensures Map((s: CompetitorSignal) => s.event, CompetitorsOf(events, lookup))
         == Filter(e => IsCompetitorSignal(e, lookup), events)
    ensures forall s :: s in OwnedOf(events, lookup) ==> WellFormedOwned(s, lookup)
    ensures forall s :: s in CompetitorsOf(events, lookup) ==> WellFormedCompetitor(s, lookup)
    ensures forall e :: e in events ==>
              IsOwned(e, lookup) || IsCompetitorSignal(e, lookup) ||
              exists s :: s in InvalidOf(events, lookup) && s.event == e
    ensures forall s :: s in InvalidOf(events, lookup) ==> s.event in events && s.reason in Reasons(s.event, lookup)
  {
    if events != [] {
      var event := Last(events);
      var verdict := Classify(event, lookup);
      ClassificationConserves(Init(events), lookup);
      VerdictConserves(event, lookup);
      assert events == Init(events) + [event];
      var owned, competitors := OwnedOf(events, lookup), CompetitorsOf(events, lookup);
      assert verdict.owned.Some? ==> Init(owned) == OwnedOf(Init(events), lookup);
      assert verdict.competitor.Some? ==> Init(competitors) == CompetitorsOf(Init(events), lookup);
      if verdict.reasons != [] {
        assert Blamed(event, verdict.reasons)[0].event == event;
        assert Blamed(event, verdict.reasons)[0] in InvalidOf(events, lookup);
      }
    }
  }

  /** A classification does not depend on the order its events arrive in, when their ids differ. */
  lemma ClassificationForgetsOrder(events: seq<OutboxEvent>, shuffled: seq<OutboxEvent>)
    requires multiset(events) == multiset(shuffled)
    requires forall i, j :: 0 <= i < |events| && 0 <= j < |events| && events[i].id == events[j].id ==>
                       events[i] == events[j]
    ensures SortBy(EventLe, events) == SortBy(EventLe, shuffled)
  {
    OrdersAreTotal();
    SortForgetsOrder(EventLe, events, shuffled);
  }
}
