/** Where classification sends each event, in terms of its payload, its row and the lookup. */
module AlertClassification {
  import opened Wrappers
  import opened Sequences
  import opened AlertPayloads
  import opened AlertBatch

  /** The three lists of a classification. */
  datatype Lists = Lists(owned: seq<OwnedSignal>, competitors: seq<CompetitorSignal>, invalid: seq<InvalidSignal>)

  function ListsOf(events: seq<OutboxEvent>, lookup: Lookup): Lists {
    Lists(OwnedOf(events, lookup), CompetitorsOf(events, lookup), InvalidOf(events, lookup))
  }

  ghost predicate IsOwnedBy(lists: Lists, event: OutboxEvent, primaries: seq<App>) {
    forall s :: s in lists.owned && s.event == event <==> s == OwnedSignal(event, primaries)
  }

  ghost predicate NotOwned(lists: Lists, event: OutboxEvent) {
    forall s :: s in lists.owned ==> s.event != event
  }

  ghost predicate TellsOf(lists: Lists, event: OutboxEvent, competitor: App, primary: App) {
    forall s :: s in lists.competitors && s.event == event <==> s == CompetitorSignal(event, competitor, primary)
  }

  ghost predicate TellsNothing(lists: Lists, event: OutboxEvent) {
    forall s :: s in lists.competitors ==> s.event != event
  }

  ghost predicate SkippedFor(lists: Lists, event: OutboxEvent, reasons: set<SkipReason>) {
    forall s :: s in lists.invalid && s.event == event <==> s.event == event && s.reason in reasons
  }

  /** The event is owned by exactly these apps and in no other list. */
  ghost predicate OnlyOwned(lists: Lists, event: OutboxEvent, primaries: seq<App>) {
    IsOwnedBy(lists, event, primaries) && TellsNothing(lists, event) && SkippedFor(lists, event, {})
  }

  /** The event is news of a competitor of this primary and in no other list. */
  ghost predicate OnlyTold(lists: Lists, event: OutboxEvent, competitor: App, primary: App) {
    NotOwned(lists, event) && TellsOf(lists, event, competitor, primary) && SkippedFor(lists, event, {})
  }

  /** The event is skipped for exactly this reason and in no other list. */
  ghost predicate OnlySkipped(lists: Lists, event: OutboxEvent, reason: SkipReason) {
    NotOwned(lists, event) && TellsNothing(lists, event) && SkippedFor(lists, event, {reason})
  }

  // From the lists to the verdict of one event

  lemma VerdictNamesEvent(event: OutboxEvent, lookup: Lookup)
    ensures var verdict := Classify(event, lookup);
            && (verdict.owned.Some? ==> verdict.owned.value.event == event)
            && (verdict.competitor.Some? ==> verdict.competitor.value.event == event)
  {
  }

  lemma {:induction false} OwnedOfEvent(events: seq<OutboxEvent>, lookup: Lookup, event: OutboxEvent)
    ensures forall s :: s in OwnedOf(events, lookup) && s.event == event <==>
              event in events && Classify(event, lookup).owned == Some(s)
  {
    VerdictNamesEvent(event, lookup);
    if events != [] {
      assert events == Init(events) + [Last(events)];
      OwnedOfEvent(Init(events), lookup, event);
      VerdictNamesEvent(Last(events), lookup);
    }
  }

  lemma {:induction false} CompetitorsOfEvent(events: seq<OutboxEvent>, lookup: Lookup, event: OutboxEvent)
    ensures forall s :: s in CompetitorsOf(events, lookup) && s.event == event <==>
              event in events && Classify(event, lookup).competitor == Some(s)
  {
    VerdictNamesEvent(event, lookup);
    if events != [] {
      assert events == Init(events) + [Last(events)];
      CompetitorsOfEvent(Init(events), lookup, event);
      VerdictNamesEvent(Last(events), lookup);
    }
  }

  lemma BlamedEntries(event: OutboxEvent, reasons: seq<SkipReason>, s: InvalidSignal)
    ensures s in Blamed(event, reasons) <==> s.event == event && s.reason in reasons
  {
    var list := Blamed(event, reasons);
    if s in list {
      var i :| 0 <= i < |list| && list[i] == s;
    }
    if s.event == event && s.reason in reasons {
      var i :| 0 <= i < |reasons| && reasons[i] == s.reason;
      assert list[i] == s;
    }
  }

  lemma {:induction false} InvalidOfEvent(events: seq<OutboxEvent>, lookup: Lookup, event: OutboxEvent)
    ensures forall s :: s in InvalidOf(events, lookup) && s.event == event <==>
              s.event == event && event in events && s.reason in Classify(event, lookup).reasons
  {
    if events != [] {
      var last := Last(events);
      assert events == Init(events) + [last];
      InvalidOfEvent(Init(events), lookup, event);
      forall s
        ensures s in Blamed(last, Classify(last, lookup).reasons) <==>
                  s.event == last && s.reason in Classify(last, lookup).reasons
      {
        BlamedEntries(last, Classify(last, lookup).reasons, s);
      }
    }
  }

  /** An event of the list is in each of the three as its verdict says. */
  lemma ListedByVerdict(events: seq<OutboxEvent>, lookup: Lookup, event: OutboxEvent)
    requires event in events
    ensures var (lists, verdict) := (ListsOf(events, lookup), Classify(event, lookup));
            && (forall s :: s in lists.owned && s.event == event <==> verdict.owned == Some(s))
            && (forall s :: s in lists.competitors && s.event == event <==> verdict.competitor == Some(s))
            && (forall s :: s in lists.invalid && s.event == event <==> s.event == event && s.reason in verdict.reasons)
  {
    OwnedOfEvent(events, lookup, event);
    CompetitorsOfEvent(events, lookup, event);
    InvalidOfEvent(events, lookup, event);
  }

  // Events of one app

  predicate NamesItsApp(event: OutboxEvent) {
    !event.payload.DigestWeekly? && !event.payload.SerpEntrant? && event.appId == Some(event.payload.app)
  }

  /** What can be told of a competitor: a change of its metadata, or that it left the store. */
  predicate IsStoreNews(payload: Payload) {
    payload.MetadataChanged? || payload.AppDelisted? || payload.AppUnlistedMarket?
  }

  /** An event of an app that is no competitor goes to that app, and is never skipped. */
  lemma OwnAppIsOwned(events: seq<OutboxEvent>, lookup: Lookup, event: OutboxEvent)
    requires event in events && NamesItsApp(event)
    requires event.payload.app in lookup.appById && !lookup.appById[event.payload.app].isCompetitor
    ensures OnlyOwned(ListsOf(events, lookup), event, [lookup.appById[event.payload.app]])
  {
    ListedByVerdict(events, lookup, event);
    assert Classify(event, lookup)
        == Verdict(Some(OwnedSignal(event, [lookup.appById[event.payload.app]])), None, []);
  }

  /** Store news of a competitor goes to its primary, when that is known and no competitor itself. */
  lemma CompetitorNewsIsTold(events: seq<OutboxEvent>, lookup: Lookup, event: OutboxEvent)
    requires event in events && NamesItsApp(event) && IsStoreNews(event.payload)
    requires event.payload.app in lookup.appById && lookup.appById[event.payload.app].isCompetitor
    ensures var (lists, app) := (ListsOf(events, lookup), lookup.appById[event.payload.app]);
            if app.primaryAppId.None? then OnlySkipped(lists, event, OrphanCompetitor)
            else if app.primaryAppId.value !in lookup.appById then OnlySkipped(lists, event, UnresolvedPrimary)
            else if lookup.appById[app.primaryAppId.value].isCompetitor then OnlySkipped(lists, event, InvalidPrimary)
            else OnlyTold(lists, event, app, lookup.appById[app.primaryAppId.value])
  {
    ListedByVerdict(events, lookup, event);
  }

  /** Every other event that names an app is skipped, for the first reason that holds. */
  lemma SkippedAppEvent(events: seq<OutboxEvent>, lookup: Lookup, event: OutboxEvent)
    requires event in events && !event.payload.SerpEntrant?
    ensures event.payload.DigestWeekly? ==> OnlySkipped(ListsOf(events, lookup), event, UnsupportedEvent)
    ensures !event.payload.DigestWeekly? && event.appId != Some(event.payload.app) ==>
              OnlySkipped(ListsOf(events, lookup), event, AppMismatch)
    ensures NamesItsApp(event) && event.payload.app !in lookup.appById ==>
              OnlySkipped(ListsOf(events, lookup), event, UnresolvedApp)
    ensures NamesItsApp(event) && event.payload.app in lookup.appById
            && lookup.appById[event.payload.app].isCompetitor && !IsStoreNews(event.payload) ==>
              OnlySkipped(ListsOf(events, lookup), event, CompetitorOwnedSignal)
  {
    ListedByVerdict(events, lookup, event);
  }

  // Events of a keyword

  function TrackerIds(event: OutboxEvent, lookup: Lookup): seq<Id>
    requires event.payload.SerpEntrant?
  {
    var keyword := event.payload.keyword.id;
    if keyword in lookup.serpPrimaries then lookup.serpPrimaries[keyword] else []
  }

  lemma {:induction false} PrimariesById(ids: seq<Id>, lookup: Lookup, app: App)
    ensures app in SerpPrimaries(ids, lookup) <==>
              exists id :: id in ids && id in lookup.appById && lookup.appById[id] == app && !app.isCompetitor
  {
    if ids != [] {
      assert ids == Init(ids) + [Last(ids)];
      PrimariesById(Init(ids), lookup, app);
    }
  }

  lemma {:induction false} ReasonsById(ids: seq<Id>, lookup: Lookup, reason: SkipReason)
    ensures reason in SerpReasons(ids, lookup) <==>
              || (reason == UnresolvedPrimary && SomeUnknown(ids, lookup))
              || (reason == InvalidPrimary && SomeCompeting(ids, lookup))
  {
    if ids != [] {
      assert forall i :: 0 <= i < |ids| - 1 ==> Init(ids)[i] == ids[i];
      ReasonsById(Init(ids), lookup, reason);
    }
  }

  /** Named apps come first, by the place of their name, then by id. */
  predicate InNameOrder(left: App, right: App) {
    match (left.name, right.name)
    case (Some(a), Some(b)) => a.place < b.place || (a.place == b.place && left.id <= right.id)
    case (Some(_), None) => true
    case (None, Some(_)) => false
    case (None, None) => left.id <= right.id
  }

  /** The primaries of an entrant: the tracked apps that are known and no competitors, each once, by name. */
  ghost predicate TrackedPrimaries(primaries: seq<App>, ids: seq<Id>, lookup: Lookup) {
    && (forall app :: app in primaries <==>
          exists id :: id in ids && id in lookup.appById && lookup.appById[id] == app && !app.isCompetitor)
    && (forall i, j :: 0 <= i < j < |primaries| ==> primaries[i] != primaries[j] && InNameOrder(primaries[i], primaries[j]))
  }

  lemma EntrantPrimaries(event: OutboxEvent, lookup: Lookup)
    requires Coherent(lookup) && event.payload.SerpEntrant?
    ensures TrackedPrimaries(SortBy(AppLe, SerpPrimaries(SerpIds(event, lookup), lookup)), TrackerIds(event, lookup), lookup)
  {
    var ids := SerpIds(event, lookup);
    var primaries := SerpPrimaries(ids, lookup);
    var sorted := SortBy(AppLe, primaries);
    SerpPrimariesWellFormed(ids, lookup);
    SortPermutes(AppLe, primaries);
    DistinctArrangement(primaries, sorted);
    OrdersAreTotal();
    SortSorted(AppLe, primaries);
    forall app
      ensures app in sorted <==>
                exists id :: id in TrackerIds(event, lookup) && id in lookup.appById && lookup.appById[id] == app
                             && !app.isCompetitor
    {
      PrimariesById(ids, lookup, app);
      SortedMember(AppLe, primaries, app);
    }
    forall i, j | 0 <= i < j < |sorted|
      ensures InNameOrder(sorted[i], sorted[j])
    {
      assert AppLe(sorted[i], sorted[j]);
    }
  }

  predicate SomeUnknown(ids: seq<Id>, lookup: Lookup) {
    exists i :: 0 <= i < |ids| && ids[i] !in lookup.appById
  }

  predicate SomeCompeting(ids: seq<Id>, lookup: Lookup) {
    exists i :: 0 <= i < |ids| && ids[i] in lookup.appById && lookup.appById[ids[i]].isCompetitor
  }

  /** What an entrant of these trackers is skipped for. */
  function EntrantReasons(ids: seq<Id>, lookup: Lookup): set<SkipReason> {
    (if ids == [] then {SerpWithoutPrimary} else {})
    + (if SomeUnknown(ids, lookup) then {UnresolvedPrimary} else {})
    + (if SomeCompeting(ids, lookup) then {InvalidPrimary} else {})
  }

  lemma SameIdsSameReasons(ids: seq<Id>, others: seq<Id>, lookup: Lookup)
    requires forall id :: id in ids ==> id in others
    ensures SomeUnknown(ids, lookup) ==> SomeUnknown(others, lookup)
    ensures SomeCompeting(ids, lookup) ==> SomeCompeting(others, lookup)
  {
    if SomeUnknown(ids, lookup) {
      var i :| 0 <= i < |ids| && ids[i] !in lookup.appById;
      var id: Id := ids[i];
      assert id in ids;
      var j :| 0 <= j < |others| && others[j] == id;
    }
    if SomeCompeting(ids, lookup) {
      var i :| 0 <= i < |ids| && ids[i] in lookup.appById && lookup.appById[ids[i]].isCompetitor;
      var id: Id := ids[i];
      assert id in ids;
      var j :| 0 <= j < |others| && others[j] == id;
    }
  }

  lemma EntrantSkips(event: OutboxEvent, lookup: Lookup, reason: SkipReason)
    requires event.payload.SerpEntrant?
    ensures reason in Classify(event, lookup).reasons <==> reason in EntrantReasons(TrackerIds(event, lookup), lookup)
  {
    var ids, trackers := SerpIds(event, lookup), TrackerIds(event, lookup);
    assert forall id :: id in ids <==> id in trackers;
    assert ids == [] <==> trackers == [] by {
      assert trackers != [] ==> trackers[0] in ids;
      assert ids != [] ==> ids[0] in trackers;
    }
    SameIdsSameReasons(ids, trackers, lookup);
    SameIdsSameReasons(trackers, ids, lookup);
    ReasonsById(ids, lookup, reason);
  }

  /** The list is empty, or it is the primaries the event is owned by. */
  ghost predicate OwnedByAll(lists: Lists, event: OutboxEvent, primaries: seq<App>) {
    && (primaries == [] ==> NotOwned(lists, event))
    && (primaries != [] ==> IsOwnedBy(lists, event, primaries))
  }

  lemma EntrantVerdict(event: OutboxEvent, lookup: Lookup)
    requires event.payload.SerpEntrant?
    ensures var (verdict, primaries) := (Classify(event, lookup), SortBy(AppLe, SerpPrimaries(SerpIds(event, lookup), lookup)));
            && verdict.competitor.None?
            && verdict.owned == if primaries == [] then None else Some(OwnedSignal(event, primaries))
  {
    SortPermutes(AppLe, SerpPrimaries(SerpIds(event, lookup), lookup));
  }

  /**
   An entrant of a tracked keyword goes to exactly the tracked apps that are known and no competitors;
   it is skipped for the trackers that are not known and for those that are competitors', and as a
   whole only without trackers.
   */
  lemma EntrantIsOwned(events: seq<OutboxEvent>, lookup: Lookup, event: OutboxEvent) returns (primaries: seq<App>)
    requires Coherent(lookup) && event in events && event.payload.SerpEntrant?
    ensures TrackedPrimaries(primaries, TrackerIds(event, lookup), lookup)
    ensures OwnedByAll(ListsOf(events, lookup), event, primaries) && TellsNothing(ListsOf(events, lookup), event)
    ensures SkippedFor(ListsOf(events, lookup), event, EntrantReasons(TrackerIds(event, lookup), lookup))
  {
    primaries := SortBy(AppLe, SerpPrimaries(SerpIds(event, lookup), lookup));
    EntrantPrimaries(event, lookup);
    EntrantVerdict(event, lookup);
    ListedByVerdict(events, lookup, event);
    forall reason
      ensures reason in Classify(event, lookup).reasons <==> reason in EntrantReasons(TrackerIds(event, lookup), lookup)
    {
      EntrantSkips(event, lookup, reason);
    }
  }
}
