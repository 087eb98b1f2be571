/** Classified signals become sections per app, sections become a batch. */
module AlertAssembly {
  import opened Wrappers
  import opened Sequences
  import opened AlertPayloads
  import opened AlertBatch

  datatype Scope = OwnedApps | CompetitorApps

  datatype CompetitorSection = CompetitorSection(app: BatchApp, changes: seq<Payload>, availability: seq<Payload>)

  datatype Section = Section(
    app: BatchApp,
    availability: seq<Payload>,
    rankDrops: seq<Payload>,
    rankImprovements: seq<Payload>,
    rankMilestones: seq<Payload>,
    firstRankings: seq<Payload>,
    overtakes: seq<Payload>,
    chartMoves: seq<Payload>,
    serpEntrants: seq<Payload>,
    changes: seq<Payload>,
    ratingDrops: seq<Payload>,
    negativeReviews: seq<Payload>,
    newReviews: seq<Payload>,
    reviewSpikes: seq<Payload>,
    actions: seq<Payload>,
    competitors: seq<CompetitorSection>)

  datatype Batch = Batch(
    scope: Scope,
    occurredAt: int,
    from: int,
    totalEvents: nat,
    totalApps: nat,
    apps: seq<Section>,
    events: seq<Payload>)

  /** The lists of a section that take signals of the app itself. */
  datatype ListKind =
    | Availability | RankDrops | RankImprovements | RankMilestones | FirstRankings | Overtakes | ChartMoves
    | SerpEntrants | Changes | RatingDrops | NegativeReviews | NewReviews | ReviewSpikes | Actions

  /** Where `addOwnedSignal` pushes a payload. */
  function ListOf(payload: Payload): Option<ListKind> {
    if IsAvailability(payload) then Some(Availability)
    else if payload.RankDropped? then Some(RankDrops)
    else if payload.RankImproved? then Some(RankImprovements)
    else if payload.RankMilestone? then Some(RankMilestones)
    else if payload.RankFirst? then Some(FirstRankings)
    else if payload.RankOvertaken? then Some(Overtakes)
    else if IsChartMove(payload) then Some(ChartMoves)
    else if payload.SerpEntrant? then Some(SerpEntrants)
    else if payload.MetadataChanged? then Some(Changes)
    else if payload.ReviewNegative? then Some(NegativeReviews)
    else if payload.ReviewNew? then Some(NewReviews)
    else if payload.RatingDropped? then Some(RatingDrops)
    else if payload.ReviewSpike? then Some(ReviewSpikes)
    else if payload.ActionOpened? then Some(Actions)
    else None
  }

  function ListIn(section: Section, kind: ListKind): seq<Payload> {
    match kind
    case Availability => section.availability
    case RankDrops => section.rankDrops
    case RankImprovements => section.rankImprovements
    case RankMilestones => section.rankMilestones
    case FirstRankings => section.firstRankings
    case Overtakes => section.overtakes
    case ChartMoves => section.chartMoves
    case SerpEntrants => section.serpEntrants
    case Changes => section.changes
    case RatingDrops => section.ratingDrops
    case NegativeReviews => section.negativeReviews
    case NewReviews => section.newReviews
    case ReviewSpikes => section.reviewSpikes
    case Actions => section.actions
  }

  function Push(section: Section, payload: Payload): Section {
    match ListOf(payload)
    case None => section
    case Some(Availability) => section.(availability := section.availability + [payload])
    case Some(RankDrops) => section.(rankDrops := section.rankDrops + [payload])
    case Some(RankImprovements) => section.(rankImprovements := section.rankImprovements + [payload])
    case Some(RankMilestones) => section.(rankMilestones := section.rankMilestones + [payload])
    case Some(FirstRankings) => section.(firstRankings := section.firstRankings + [payload])
    case Some(Overtakes) => section.(overtakes := section.overtakes + [payload])
    case Some(ChartMoves) => section.(chartMoves := section.chartMoves + [payload])
    case Some(SerpEntrants) => section.(serpEntrants := section.serpEntrants + [payload])
    case Some(Changes) => section.(changes := section.changes + [payload])
    case Some(RatingDrops) => section.(ratingDrops := section.ratingDrops + [payload])
    case Some(NegativeReviews) => section.(negativeReviews := section.negativeReviews + [payload])
    case Some(NewReviews) => section.(newReviews := section.newReviews + [payload])
    case Some(ReviewSpikes) => section.(reviewSpikes := section.reviewSpikes + [payload])
    case Some(Actions) => section.(actions := section.actions + [payload])
  }

  function EmptySection(app: App): Section {
    Section(ToBatchApp(app), [], [], [], [], [], [], [], [], [], [], [], [], [], [], [])
  }

  // What the sections of a list of signals are, without building them up

  function AllPrimaries(signals: seq<OwnedSignal>): seq<App> {
    if signals == [] then [] else AllPrimaries(Init(signals)) + Last(signals).primaries
  }

  /** The apps of the signals, each once, where it is first met. */
  function AppsOf(signals: seq<OwnedSignal>): seq<App> {
    Unique(AllPrimaries(signals))
  }

  function Feeds(app: App, kind: ListKind): OwnedSignal -> bool {
    (s: OwnedSignal) => app in s.primaries && ListOf(s.event.payload) == Some(kind)
  }

  function PayloadOf(signal: OwnedSignal): Payload {
    signal.event.payload
  }

  /** One list of one app: the payloads of the signals that reach it, in their order. */
  function ListFor(signals: seq<OwnedSignal>, app: App, kind: ListKind): seq<Payload> {
    Map(PayloadOf, Filter(Feeds(app, kind), signals))
  }

  function SectionFor(signals: seq<OwnedSignal>, app: App): Section {
    Section(ToBatchApp(app),
            ListFor(signals, app, Availability), ListFor(signals, app, RankDrops),
            ListFor(signals, app, RankImprovements), ListFor(signals, app, RankMilestones),
            ListFor(signals, app, FirstRankings), ListFor(signals, app, Overtakes),
            ListFor(signals, app, ChartMoves), ListFor(signals, app, SerpEntrants),
            ListFor(signals, app, Changes), ListFor(signals, app, RatingDrops),
            ListFor(signals, app, NegativeReviews), ListFor(signals, app, NewReviews),
            ListFor(signals, app, ReviewSpikes), ListFor(signals, app, Actions), [])
  }

  function SectionOf(signals: seq<OwnedSignal>): App -> Section {
    (app: App) => SectionFor(signals, app)
  }

  function SectionsOf(signals: seq<OwnedSignal>): seq<Section> {
    Map(SectionOf(signals), AppsOf(signals))
  }

  /** The apps are those of the lookup, so an id tells which app it is. */
  ghost predicate IdsName(apps: seq<App>, byId: map<Id, App>) {
    forall a :: a in apps ==> a.id in byId && byId[a.id] == a
  }

  lemma ListForAppend(signals: seq<OwnedSignal>, signal: OwnedSignal, app: App, kind: ListKind)
    ensures ListFor(signals + [signal], app, kind)
         == if Feeds(app, kind)(signal) then ListFor(signals, app, kind) + [PayloadOf(signal)]
            else ListFor(signals, app, kind)
  {
    var all := signals + [signal];
    assert Init(all) == signals && Last(all) == signal;
    if Feeds(app, kind)(signal) {
      var fed := Filter(Feeds(app, kind), all);
      assert Init(fed) == Filter(Feeds(app, kind), signals);
    }
  }

  /** The signal with only its first `j` primaries. */
  function Part(signal: OwnedSignal, j: nat): OwnedSignal
    requires j <= |signal.primaries|
  {
    OwnedSignal(signal.event, signal.primaries[..j])
  }

  lemma SectionLists(signals: seq<OwnedSignal>, app: App, kind: ListKind)
    ensures ListIn(SectionFor(signals, app), kind) == ListFor(signals, app, kind)
  {
  }

  lemma PushGrows(section: Section, payload: Payload, kind: ListKind)
    ensures ListIn(Push(section, payload), kind)
         == if ListOf(payload) == Some(kind) then ListIn(section, kind) + [payload] else ListIn(section, kind)
  {
  }

  /** Sections of one app with the same lists are the same. */
  lemma SameLists(left: Section, right: Section)
    requires left.app == right.app && left.competitors == right.competitors
    requires forall kind: ListKind :: ListIn(left, kind) == ListIn(right, kind)
    ensures left == right
  {
    assert ListIn(left, Availability) == ListIn(right, Availability);
    assert ListIn(left, RankDrops) == ListIn(right, RankDrops);
    assert ListIn(left, RankImprovements) == ListIn(right, RankImprovements);
    assert ListIn(left, RankMilestones) == ListIn(right, RankMilestones);
    assert ListIn(left, FirstRankings) == ListIn(right, FirstRankings);
    assert ListIn(left, Overtakes) == ListIn(right, Overtakes);
    assert ListIn(left, ChartMoves) == ListIn(right, ChartMoves);
    assert ListIn(left, SerpEntrants) == ListIn(right, SerpEntrants);
    assert ListIn(left, Changes) == ListIn(right, Changes);
    assert ListIn(left, RatingDrops) == ListIn(right, RatingDrops);
    assert ListIn(left, NegativeReviews) == ListIn(right, NegativeReviews);
    assert ListIn(left, NewReviews) == ListIn(right, NewReviews);
    assert ListIn(left, ReviewSpikes) == ListIn(right, ReviewSpikes);
    assert ListIn(left, Actions) == ListIn(right, Actions);
  }

  lemma ListGrows(added: seq<OwnedSignal>, signal: OwnedSignal, j: nat, app: App, kind: ListKind)
    requires j < |signal.primaries| && Sequences.Distinct(signal.primaries)
    ensures ListFor(added + [Part(signal, j + 1)], app, kind)
         == if app == signal.primaries[j] && ListOf(PayloadOf(signal)) == Some(kind)
            then ListFor(added + [Part(signal, j)], app, kind) + [PayloadOf(signal)]
            else ListFor(added + [Part(signal, j)], app, kind)
  {
    ListForAppend(added, Part(signal, j), app, kind);
    ListForAppend(added, Part(signal, j + 1), app, kind);
    assert signal.primaries[..j + 1] == signal.primaries[..j] + [signal.primaries[j]];
    assert signal.primaries[j] !in signal.primaries[..j];
  }

  /** What one more primary changes: its own section, by one push. */
  lemma SectionGrows(added: seq<OwnedSignal>, signal: OwnedSignal, j: nat, app: App)
    requires j < |signal.primaries| && Sequences.Distinct(signal.primaries)
    ensures SectionFor(added + [Part(signal, j + 1)], app)
         == if app == signal.primaries[j] then Push(SectionFor(added + [Part(signal, j)], app), PayloadOf(signal))
            else SectionFor(added + [Part(signal, j)], app)
  {
    forall kind: ListKind
      ensures ListIn(SectionFor(added + [Part(signal, j + 1)], app), kind)
           == if app == signal.primaries[j] && ListOf(PayloadOf(signal)) == Some(kind)
              then ListIn(SectionFor(added + [Part(signal, j)], app), kind) + [PayloadOf(signal)]
              else ListIn(SectionFor(added + [Part(signal, j)], app), kind)
    {
      ListGrows(added, signal, j, app, kind);
      SectionLists(added + [Part(signal, j)], app, kind);
      SectionLists(added + [Part(signal, j + 1)], app, kind);
    }
    GrownSection(SectionFor(added + [Part(signal, j)], app), SectionFor(added + [Part(signal, j + 1)], app),
                 PayloadOf(signal), app == signal.primaries[j]);
  }

  lemma GrownSection(before: Section, after: Section, payload: Payload, pushed: bool)
    requires before.app == after.app && before.competitors == after.competitors
    requires forall kind: ListKind ::
               ListIn(after, kind) == if pushed && ListOf(payload) == Some(kind) then ListIn(before, kind) + [payload]
                                      else ListIn(before, kind)
    ensures after == if pushed then Push(before, payload) else before
  {
    var grown := if pushed then Push(before, payload) else before;
    forall kind: ListKind
      ensures ListIn(after, kind) == ListIn(grown, kind)
    {
      PushGrows(before, payload, kind);
    }
    assert grown.app == after.app && grown.competitors == after.competitors;
    SameLists(after, grown);
  }

  lemma {:induction false} UnmetSectionIsEmpty(signals: seq<OwnedSignal>, app: App)
    requires app !in AllPrimaries(signals)
    ensures SectionFor(signals, app) == EmptySection(app)
  {
    forall kind: ListKind
      ensures ListIn(SectionFor(signals, app), kind) == ListIn(EmptySection(app), kind)
    {
      SectionLists(signals, app, kind);
      NothingFed(signals, app, kind);
    }
    SameLists(SectionFor(signals, app), EmptySection(app));
  }

  lemma {:induction false} NothingFed(signals: seq<OwnedSignal>, app: App, kind: ListKind)
    requires app !in AllPrimaries(signals)
    ensures Filter(Feeds(app, kind), signals) == []
  {
    if signals != [] {
      NothingFed(Init(signals), app, kind);
    }
  }

  /** The apps met so far, and the one the next primary may add. */
  lemma AppsGrow(added: seq<OwnedSignal>, signal: OwnedSignal, j: nat)
    requires j < |signal.primaries|
    ensures AllPrimaries(added + [Part(signal, j)]) == AllPrimaries(added) + signal.primaries[..j]
    ensures var apps := AppsOf(added + [Part(signal, j)]);
            AppsOf(added + [Part(signal, j + 1)])
            == if signal.primaries[j] in apps then apps else apps + [signal.primaries[j]]
  {
    var before, after := added + [Part(signal, j)], added + [Part(signal, j + 1)];
    assert Init(before) == added && Init(after) == added;
    assert AllPrimaries(after) == AllPrimaries(before) + [signal.primaries[j]];
    assert Init(AllPrimaries(after)) == AllPrimaries(before);
  }

  /** One more primary changes its own section, by one push, and no other. */
  lemma SectionChange(added: seq<OwnedSignal>, signal: OwnedSignal, j: nat)
    requires j < |signal.primaries| && Sequences.Distinct(signal.primaries)
    ensures var f, g := SectionOf(added + [Part(signal, j)]), SectionOf(added + [Part(signal, j + 1)]);
            && (forall a :: a != signal.primaries[j] ==> g(a) == f(a))
            && g(signal.primaries[j]) == Push(f(signal.primaries[j]), PayloadOf(signal))
  {
    forall a
      ensures SectionFor(added + [Part(signal, j + 1)], a)
           == if a == signal.primaries[j] then Push(SectionFor(added + [Part(signal, j)], a), PayloadOf(signal))
              else SectionFor(added + [Part(signal, j)], a)
    {
      SectionGrows(added, signal, j, a);
    }
  }

  lemma PrimariesNamed(added: seq<OwnedSignal>, signal: OwnedSignal, j: nat, byId: map<Id, App>)
    requires j < |signal.primaries| && IdsName(AllPrimaries(added + [signal]), byId)
    ensures var app := signal.primaries[j];
            IdsName(AppsOf(added + [Part(signal, j)]), byId) && app.id in byId && byId[app.id] == app
  {
    AppsGrow(added, signal, j);
    assert Init(added + [signal]) == added;
    assert forall a :: a in AppsOf(added + [Part(signal, j)]) || a == signal.primaries[j] ==>
        a in AllPrimaries(added + [signal]);
  }

  function SectionId(section: Section): Id {
    section.app.id
  }

  function CompetitorSectionId(section: CompetitorSection): Id {
    section.app.id
  }

  /** A lookup by id answered: the list it left behind, with a new entry when there was none, and the place. */
  ghost predicate FoundAt<S>(list: seq<S>, idOf: S -> Id, id: Id, added: S, found: seq<S>, k: nat) {
    && k < |found| && idOf(found[k]) == id
    && ((exists i :: 0 <= i < |list| && idOf(list[i]) == id) ==> found == list)
    && ((forall i :: 0 <= i < |list| ==> idOf(list[i]) != id) ==> found == list + [added] && k == |list|)
  }

  ghost predicate IdsOf<S>(f: App -> S, idOf: S -> Id) {
    forall a :: idOf(f(a)) == a.id
  }

  /** Looking up an app among the entries of apps finds its own entry, or adds it. */
  lemma EntryFound<S>(f: App -> S, idOf: S -> Id, apps: seq<App>, app: App, found: seq<S>, k: nat, byId: map<Id, App>)
    requires IdsName(apps, byId) && app.id in byId && byId[app.id] == app
    requires IdsOf(f, idOf)
    requires FoundAt(Map(f, apps), idOf, app.id, f(app), found, k)
    ensures app in apps ==> found == Map(f, apps) && k < |apps| && apps[k] == app
    ensures app !in apps ==> found == Map(f, apps) + [f(app)] && k == |apps|
  {
    var list := Map(f, apps);
    if app in apps {
      var i :| 0 <= i < |apps| && apps[i] == app;
      assert idOf(list[i]) == app.id;
      assert apps[k] in apps;
    } else {
      forall i | 0 <= i < |apps|
        ensures idOf(list[i]) != app.id
      {
        assert apps[i] in apps;
      }
    }
  }

  /** The entries before and after a change of one app's entry, at the place found for it. */
  lemma EntryPlaced<S>(f: App -> S, g: App -> S, idOf: S -> Id, apps: seq<App>, app: App, found: seq<S>, k: nat,
                       byId: map<Id, App>)
    requires Sequences.Distinct(apps)
    requires IdsName(apps, byId) && app.id in byId && byId[app.id] == app
    requires IdsOf(f, idOf)
    requires FoundAt(Map(f, apps), idOf, app.id, f(app), found, k)
    requires forall a :: a != app ==> g(a) == f(a)
    ensures found[k] == f(app)
    ensures found[k := g(app)] == Map(g, if app in apps then apps else apps + [app])
  {
    EntryFound(f, idOf, apps, app, found, k, byId);
    SectionPlaced(f, g, apps, app, found, k);
  }

  /** Sections before and after one primary is added, at the place found for it. */
  lemma SectionsGrow(added: seq<OwnedSignal>, signal: OwnedSignal, j: nat, found: seq<Section>, k: nat,
                     byId: map<Id, App>)
    requires j < |signal.primaries| && Sequences.Distinct(signal.primaries)
    requires IdsName(AllPrimaries(added + [signal]), byId)
    requires FoundAt(SectionsOf(added + [Part(signal, j)]), SectionId, signal.primaries[j].id,
                     EmptySection(signal.primaries[j]), found, k)
    ensures found[k := Push(found[k], PayloadOf(signal))] == SectionsOf(added + [Part(signal, j + 1)])
  {
    var before, after := added + [Part(signal, j)], added + [Part(signal, j + 1)];
    var app, apps := signal.primaries[j], AppsOf(before);
    AppsGrow(added, signal, j);
    PrimariesNamed(added, signal, j, byId);
    SectionChange(added, signal, j);
    if app !in apps {
      UnmetSectionIsEmpty(before, app);
    } else {
      SectionMet(before, app);
    }
    EntryPlaced(SectionOf(before), SectionOf(after), SectionId, apps, app, found, k, byId);
  }

  lemma SectionMet(signals: seq<OwnedSignal>, app: App)
    requires app in AppsOf(signals)
    ensures exists i :: 0 <= i < |SectionsOf(signals)| && SectionId(SectionsOf(signals)[i]) == app.id
  {
    var i :| 0 <= i < |AppsOf(signals)| && AppsOf(signals)[i] == app;
    assert SectionId(SectionsOf(signals)[i]) == app.id;
  }

  /** The images of a list of apps under two functions that differ at one app. */
  lemma SectionPlaced<S>(f: App -> S, g: App -> S, apps: seq<App>, app: App, found: seq<S>, k: nat)
    requires Sequences.Distinct(apps)
    requires forall a :: a in apps && a != app ==> g(a) == f(a)
    requires app in apps ==> found == Map(f, apps) && k < |apps| && apps[k] == app
    requires app !in apps ==> found == Map(f, apps) + [f(app)] && k == |apps|
    ensures found[k] == f(app) && found[k := g(app)] == Map(g, if app in apps then apps else apps + [app])
  {
    if app in apps {
      MapAt(f, g, apps, k);
    } else {
      MapNext(f, g, apps, app);
    }
  }

  lemma MapAt<T, U>(f: T -> U, g: T -> U, s: seq<T>, k: nat)
    requires k < |s| && Sequences.Distinct(s)
    requires forall x :: x in s && x != s[k] ==> g(x) == f(x)
    ensures Map(g, s) == Map(f, s)[k := g(s[k])]
  {
  }

  lemma MapNext<T, U>(f: T -> U, g: T -> U, s: seq<T>, x: T)
    requires forall y :: y in s ==> g(y) == f(y)
    ensures Map(g, s + [x]) == (Map(f, s) + [f(x)])[|s| := g(x)]
  {
  }

  /** A signal without primaries adds nothing. */
  lemma NoPrimaryNoSection(added: seq<OwnedSignal>, event: OutboxEvent)
    ensures SectionsOf(added + [OwnedSignal(event, [])]) == SectionsOf(added)
  {
    var after := added + [OwnedSignal(event, [])];
    assert Init(after) == added;
    forall app
      ensures SectionFor(after, app) == SectionFor(added, app)
    {
      forall kind: ListKind
        ensures ListIn(SectionFor(after, app), kind) == ListIn(SectionFor(added, app), kind)
      {
        ListForAppend(added, OwnedSignal(event, []), app, kind);
        SectionLists(after, app, kind);
        SectionLists(added, app, kind);
      }
      SameLists(SectionFor(after, app), SectionFor(added, app));
    }
    assert AllPrimaries(after) == AllPrimaries(added);
    MapAgree(SectionOf(after), SectionOf(added), AppsOf(added));
  }

  // The sections of competitor signals

  function PrimaryOf(signal: CompetitorSignal): App {
    signal.primary
  }

  function CompetitorAppOf(signal: CompetitorSignal): App {
    signal.competitor
  }

  function CompetitorPayload(signal: CompetitorSignal): Payload {
    signal.event.payload
  }

  function PrimariesOf(signals: seq<CompetitorSignal>): seq<App> {
    Unique(Map(PrimaryOf, signals))
  }

  function Under(primary: App): CompetitorSignal -> bool {
    (s: CompetitorSignal) => s.primary == primary
  }

  function CompetitorsUnder(signals: seq<CompetitorSignal>, primary: App): seq<App> {
    Unique(Map(CompetitorAppOf, Filter(Under(primary), signals)))
  }

  function Tells(primary: App, competitor: App, available: bool): CompetitorSignal -> bool {
    (s: CompetitorSignal) =>
      s.primary == primary && s.competitor == competitor &&
      if available then IsAvailability(s.event.payload) else s.event.payload.MetadataChanged?
  }

  function NewsOf(signals: seq<CompetitorSignal>, primary: App, competitor: App, available: bool): seq<Payload> {
    Map(CompetitorPayload, Filter(Tells(primary, competitor, available), signals))
  }

  function CompetitorFor(signals: seq<CompetitorSignal>, primary: App, app: App): CompetitorSection {
    CompetitorSection(ToBatchApp(app), NewsOf(signals, primary, app, false), NewsOf(signals, primary, app, true))
  }

  function CompetitorOf(signals: seq<CompetitorSignal>, primary: App): App -> CompetitorSection {
    (app: App) => CompetitorFor(signals, primary, app)
  }

  function CompetitorSectionOf(signals: seq<CompetitorSignal>): App -> Section {
    (app: App) => EmptySection(app).(competitors := Map(CompetitorOf(signals, app), CompetitorsUnder(signals, app)))
  }

  function CompetitorSectionsOf(signals: seq<CompetitorSignal>): seq<Section> {
    Map(CompetitorSectionOf(signals), PrimariesOf(signals))
  }

  function PushNews(section: CompetitorSection, payload: Payload): CompetitorSection {
    if payload.MetadataChanged? then section.(changes := section.changes + [payload])
    else if IsAvailability(payload) then section.(availability := section.availability + [payload])
    else section
  }

  lemma NewsAppend(signals: seq<CompetitorSignal>, signal: CompetitorSignal, primary: App, competitor: App, available: bool)
    ensures NewsOf(signals + [signal], primary, competitor, available)
         == if Tells(primary, competitor, available)(signal)
            then NewsOf(signals, primary, competitor, available) + [signal.event.payload]
            else NewsOf(signals, primary, competitor, available)
  {
    var all := signals + [signal];
    assert Init(all) == signals && Last(all) == signal;
    if Tells(primary, competitor, available)(signal) {
      assert Init(Filter(Tells(primary, competitor, available), all)) == Filter(Tells(primary, competitor, available), signals);
    }
  }

  lemma UniqueAppend<T(!new)>(s: seq<T>, x: T)
    ensures Unique(s + [x]) == if x in s then Unique(s) else Unique(s) + [x]
  {
    assert Init(s + [x]) == s;
  }

  lemma CompetitorsUnderAppend(signals: seq<CompetitorSignal>, signal: CompetitorSignal, primary: App)
    ensures CompetitorsUnder(signals + [signal], primary)
         == if primary != signal.primary || signal.competitor in CompetitorsUnder(signals, primary)
            then CompetitorsUnder(signals, primary)
            else CompetitorsUnder(signals, primary) + [signal.competitor]
  {
    var all := signals + [signal];
    assert Init(all) == signals && Last(all) == signal;
    if primary == signal.primary {
      var under := Filter(Under(primary), signals);
      assert Map(CompetitorAppOf, under + [signal]) == Map(CompetitorAppOf, under) + [signal.competitor];
      UniqueAppend(Map(CompetitorAppOf, under), signal.competitor);
    }
  }

  /** What one more signal changes in the part of a primary app. */
  lemma NewsGrow(signals: seq<CompetitorSignal>, signal: CompetitorSignal, primary: App, app: App)
    ensures CompetitorOf(signals + [signal], primary)(app)
         == if primary == signal.primary && app == signal.competitor
            then PushNews(CompetitorOf(signals, primary)(app), signal.event.payload)
            else CompetitorOf(signals, primary)(app)
  {
    NewsAppend(signals, signal, primary, app, false);
    NewsAppend(signals, signal, primary, app, true);
  }

  lemma {:induction false} UnmetCompetitor(signals: seq<CompetitorSignal>, primary: App, app: App)
    requires app !in CompetitorsUnder(signals, primary)
    ensures CompetitorOf(signals, primary)(app) == CompetitorSection(ToBatchApp(app), [], [])
  {
    if signals != [] {
      var rest := Init(signals);
      assert signals == rest + [Last(signals)];
      CompetitorsUnderAppend(rest, Last(signals), primary);
      UnmetCompetitor(rest, primary, app);
      NewsGrow(rest, Last(signals), primary, app);
    }
  }

  lemma {:induction false} UnmetPrimary(signals: seq<CompetitorSignal>, primary: App)
    requires primary !in PrimariesOf(signals)
    ensures CompetitorsUnder(signals, primary) == []
  {
    if signals != [] {
      var rest := Init(signals);
      assert signals == rest + [Last(signals)];
      MapAppend(PrimaryOf, rest, [Last(signals)]);
      assert Last(signals).primary in Map(PrimaryOf, signals);
      assert forall a :: a in Map(PrimaryOf, rest) ==> a in Map(PrimaryOf, signals);
      CompetitorsUnderAppend(rest, Last(signals), primary);
      UnmetPrimary(rest, primary);
    }
  }

  /** A competitor's part, looked up by id among those of one primary. */
  method AddNews(ghost signals: seq<CompetitorSignal>, signal: CompetitorSignal, list: seq<CompetitorSection>,
                 ghost byId: map<Id, App>)
    returns (r: seq<CompetitorSection>)
    requires FromLookup(signals + [signal], byId)
    requires list == Map(CompetitorOf(signals, signal.primary), CompetitorsUnder(signals, signal.primary))
    ensures r == Map(CompetitorOf(signals + [signal], signal.primary), CompetitorsUnder(signals + [signal], signal.primary))
  {
    var found, k := CompetitorPlace(list, signal.competitor);
    NewsPlaced(signals, signal, found, k, byId);
    r := found[k := PushNews(found[k], signal.event.payload)];
  }

  method CompetitorPlace(list: seq<CompetitorSection>, app: App) returns (found: seq<CompetitorSection>, k: nat)
    ensures FoundAt(list, CompetitorSectionId, app.id, CompetitorSection(ToBatchApp(app), [], []), found, k)
  {
    k := 0;
    while k < |list| && CompetitorSectionId(list[k]) != app.id
      invariant k <= |list|
      invariant forall i :: 0 <= i < k ==> CompetitorSectionId(list[i]) != app.id
    {
      k := k + 1;
    }
    found := if k < |list| then list else list + [CompetitorSection(ToBatchApp(app), [], [])];
  }

  lemma NewsPlaced(signals: seq<CompetitorSignal>, signal: CompetitorSignal, found: seq<CompetitorSection>, k: nat,
                   byId: map<Id, App>)
    requires FromLookup(signals + [signal], byId)
    requires FoundAt(Map(CompetitorOf(signals, signal.primary), CompetitorsUnder(signals, signal.primary)),
                     CompetitorSectionId, signal.competitor.id,
                     CompetitorSection(ToBatchApp(signal.competitor), [], []), found, k)
    ensures found[k := PushNews(found[k], signal.event.payload)]
         == Map(CompetitorOf(signals + [signal], signal.primary), CompetitorsUnder(signals + [signal], signal.primary))
  {
    var primary, app := signal.primary, signal.competitor;
    var apps := CompetitorsUnder(signals, primary);
    CompetitorsNamed(signals, signal, byId);
    CompetitorsUnderAppend(signals, signal, primary);
    forall a
      ensures CompetitorOf(signals + [signal], primary)(a)
           == if a == app then PushNews(CompetitorOf(signals, primary)(a), signal.event.payload)
              else CompetitorOf(signals, primary)(a)
    {
      NewsGrow(signals, signal, primary, a);
    }
    if app !in apps {
      UnmetCompetitor(signals, primary, app);
    } else {
      CompetitorMet(signals, primary, app);
    }
    EntryPlaced(CompetitorOf(signals, primary), CompetitorOf(signals + [signal], primary), CompetitorSectionId,
                apps, app, found, k, byId);
  }

  lemma CompetitorMet(signals: seq<CompetitorSignal>, primary: App, app: App)
    requires app in CompetitorsUnder(signals, primary)
    ensures var list := Map(CompetitorOf(signals, primary), CompetitorsUnder(signals, primary));
            exists i :: 0 <= i < |list| && CompetitorSectionId(list[i]) == app.id
  {
    var apps := CompetitorsUnder(signals, primary);
    var i :| 0 <= i < |apps| && apps[i] == app;
    assert CompetitorSectionId(Map(CompetitorOf(signals, primary), apps)[i]) == app.id;
  }

  /** Both apps of every signal are those of the lookup. */
  ghost predicate FromLookup(signals: seq<CompetitorSignal>, byId: map<Id, App>) {
    forall s :: s in signals ==> IdsName([s.primary, s.competitor], byId)
  }

  lemma CompetitorsNamed(signals: seq<CompetitorSignal>, signal: CompetitorSignal, byId: map<Id, App>)
    requires FromLookup(signals + [signal], byId)
    ensures IdsName(CompetitorsUnder(signals, signal.primary), byId) && IdsName(PrimariesOf(signals), byId)
    ensures signal.competitor.id in byId && byId[signal.competitor.id] == signal.competitor
    ensures signal.primary.id in byId && byId[signal.primary.id] == signal.primary
  {
    assert signal in signals + [signal];
    assert signal.primary in [signal.primary, signal.competitor];
    assert signal.competitor in [signal.primary, signal.competitor];
    forall a | a in CompetitorsUnder(signals, signal.primary)
      ensures a.id in byId && byId[a.id] == a
    {
      var under := Filter(Under(signal.primary), signals);
      var i :| 0 <= i < |under| && a == Map(CompetitorAppOf, under)[i];
      FilterMembers(Under(signal.primary), signals);
      assert under[i] in signals + [signal];
      assert a in [under[i].primary, under[i].competitor];
    }
    forall a | a in PrimariesOf(signals)
      ensures a.id in byId && byId[a.id] == a
    {
      var i :| 0 <= i < |signals| && a == Map(PrimaryOf, signals)[i];
      assert signals[i] in signals + [signal];
      assert a in [signals[i].primary, signals[i].competitor];
    }
  }

  /** The mutable sections of one scope, in the order their apps are met. */
  class Sections {
    var list: seq<Section>

    constructor ()
      ensures list == []
    {
      list := [];
    }

    /** `sectionFor`: the place of an app's section, made empty when there is none. */
    method SectionIndex(app: App) returns (k: nat)
      modifies this
      ensures FoundAt(old(list), SectionId, app.id, EmptySection(app), list, k)
    {
      k := 0;
      while k < |list|
        invariant k <= |list|
        invariant list == old(list)
        invariant forall i :: 0 <= i < k ==> SectionId(list[i]) != app.id
      {
        if SectionId(list[k]) == app.id {
          return;
        }
        k := k + 1;
      }
      list := list + [EmptySection(app)];
    }

    method PushTo(app: App, payload: Payload) returns (ghost found: seq<Section>, ghost k: nat)
      modifies this
      ensures FoundAt(old(list), SectionId, app.id, EmptySection(app), found, k)
      ensures list == found[k := Push(found[k], payload)]
    {
      var place := SectionIndex(app);
      found, k := list, place;
      list := list[place := Push(list[place], payload)];
    }

    /** `addOwnedSignal`, given the signals added so far. */
    method AddOwnedSignal(ghost added: seq<OwnedSignal>, signal: OwnedSignal, ghost byId: map<Id, App>)
      requires list == SectionsOf(added)
      requires IdsName(AllPrimaries(added + [signal]), byId) && Sequences.Distinct(signal.primaries)
      modifies this
      ensures list == SectionsOf(added + [signal])
    {
      var primaries := signal.primaries;
      NoPrimaryNoSection(added, signal.event);
      assert primaries[..0] == [];
      for j := 0 to |primaries|
        invariant list == SectionsOf(added + [Part(signal, j)])
      {
        ghost var found, k := PushTo(primaries[j], signal.event.payload);
        SectionsGrow(added, signal, j, found, k, byId);
      }
      assert Part(signal, |primaries|) == signal;
    }

    /** `addCompetitorSignal`, given the signals added so far. */
    method AddCompetitorSignal(ghost added: seq<CompetitorSignal>, signal: CompetitorSignal, ghost byId: map<Id, App>)
      requires list == CompetitorSectionsOf(added)
      requires FromLookup(added + [signal], byId)
      modifies this
      ensures list == CompetitorSectionsOf(added + [signal])
    {
      ghost var before := list;
      var k := SectionIndex(signal.primary);
      PrimaryPlace(added, signal, list, k, byId);
      var competitors := AddNews(added, signal, list[k].competitors, byId);
      list := list[k := list[k].(competitors := competitors)];
      CompetitorSectionChange(added, signal);
    }
  }

  /** The section found for a primary is its own, or new. */
  lemma PrimaryPlace(added: seq<CompetitorSignal>, signal: CompetitorSignal, found: seq<Section>, k: nat,
                     byId: map<Id, App>)
    requires FromLookup(added + [signal], byId)
    requires FoundAt(CompetitorSectionsOf(added), SectionId, signal.primary.id, EmptySection(signal.primary), found, k)
    ensures found[k] == CompetitorSectionOf(added)(signal.primary)
    ensures found[k := CompetitorSectionOf(added + [signal])(signal.primary)] == CompetitorSectionsOf(added + [signal])
  {
    var app, apps := signal.primary, PrimariesOf(added);
    PrimariesAppend(added, signal);
    CompetitorsNamed(added, signal, byId);
    CompetitorSectionChange(added, signal);
    if app !in apps {
      UnmetPrimary(added, app);
    } else {
      PrimaryMet(added, app);
    }
    EntryPlaced(CompetitorSectionOf(added), CompetitorSectionOf(added + [signal]), SectionId, apps, app, found, k, byId);
  }

  lemma PrimariesAppend(added: seq<CompetitorSignal>, signal: CompetitorSignal)
    ensures PrimariesOf(added + [signal])
         == if signal.primary in PrimariesOf(added) then PrimariesOf(added) else PrimariesOf(added) + [signal.primary]
  {
    MapAppend(PrimaryOf, added, [signal]);
    UniqueAppend(Map(PrimaryOf, added), signal.primary);
    assert Map(PrimaryOf, added + [signal]) == Map(PrimaryOf, added) + [signal.primary];
  }

  lemma PrimaryMet(signals: seq<CompetitorSignal>, app: App)
    requires app in PrimariesOf(signals)
    ensures exists i :: 0 <= i < |CompetitorSectionsOf(signals)| && SectionId(CompetitorSectionsOf(signals)[i]) == app.id
  {
    var i :| 0 <= i < |PrimariesOf(signals)| && PrimariesOf(signals)[i] == app;
    assert SectionId(CompetitorSectionsOf(signals)[i]) == app.id;
  }

  lemma CompetitorSectionChange(added: seq<CompetitorSignal>, signal: CompetitorSignal)
    ensures forall a :: a != signal.primary ==>
              CompetitorSectionOf(added + [signal])(a) == CompetitorSectionOf(added)(a)
    ensures CompetitorSectionOf(added + [signal])(signal.primary)
         == CompetitorSectionOf(added)(signal.primary).(competitors :=
              Map(CompetitorOf(added + [signal], signal.primary), CompetitorsUnder(added + [signal], signal.primary)))
  {
    forall a | a != signal.primary
      ensures CompetitorSectionOf(added + [signal])(a) == CompetitorSectionOf(added)(a)
    {
      CompetitorsUnderAppend(added, signal, a);
      forall c
        ensures CompetitorOf(added + [signal], a)(c) == CompetitorOf(added, a)(c)
      {
        NewsGrow(added, signal, a, c);
      }
      MapAgree(CompetitorOf(added + [signal], a), CompetitorOf(added, a), CompetitorsUnder(added, a));
    }
  }

  // Finished batches

  function ActionRank(payload: Payload): (int, int) {
    if payload.ActionOpened? then (payload.priority, -payload.impact) else (0, 0)
  }

  /** `compareActions(left, right) <= 0`: by priority, then the larger impact first. */
  predicate ActionLe(left: Payload, right: Payload) {
    var (a, b) := (ActionRank(left), ActionRank(right));
    a.0 < b.0 || (a.0 == b.0 && a.1 <= b.1)
  }

  predicate SectionLe(left: Section, right: Section) {
    NameLe(left.app, right.app)
  }

  predicate CompetitorLe(left: CompetitorSection, right: CompetitorSection) {
    NameLe(left.app, right.app)
  }

  function FinalizeSection(section: Section): Section {
    section.(actions := SortBy(ActionLe, section.actions), competitors := SortBy(CompetitorLe, section.competitors))
  }

  function FinalizeSections(sections: seq<Section>): seq<Section> {
    SortBy(SectionLe, Map(FinalizeSection, sections))
  }

  function ImpactOrder(traffic: Traffic): (Payload, Payload) -> bool {
    (left: Payload, right: Payload) => ImpactLe(traffic, left, right)
  }

  function MovedSection(traffic: Traffic, section: Section): Section {
    section.(rankDrops := SortBy(ImpactOrder(traffic), section.rankDrops),
             rankImprovements := SortBy(ImpactOrder(traffic), section.rankImprovements),
             rankMilestones := SortBy(ImpactOrder(traffic), section.rankMilestones),
             firstRankings := SortBy(ImpactOrder(traffic), section.firstRankings),
             overtakes := SortBy(ImpactOrder(traffic), section.overtakes))
  }

  function MovesByImpact(traffic: Traffic): Section -> Section {
    (section: Section) => MovedSection(traffic, section)
  }

  function OwnedBatch(signals: seq<OwnedSignal>, now: int, traffic: Option<Traffic>): Batch {
    var apps := FinalizeSections(SectionsOf(signals));
    Batch(OwnedApps, now, if signals == [] then now else signals[0].event.createdAt,
          |signals|, |SectionsOf(signals)|,
          if traffic.Some? then Map(MovesByImpact(traffic.value), apps) else apps,
          Map(PayloadOf, signals))
  }

  function CompetitorIdOf(signal: CompetitorSignal): Id {
    signal.competitor.id
  }

  function CompetitorBatch(signals: seq<CompetitorSignal>, now: int): Batch {
    Batch(CompetitorApps, now, if signals == [] then now else signals[0].event.createdAt,
          |signals|, |Unique(Map(CompetitorIdOf, signals))|,
          FinalizeSections(CompetitorSectionsOf(signals)),
          Map(CompetitorPayload, signals))
  }

  /** The events a flush classifies: sorted, with one rating drop per app and day. */
  function SelectedEvents(events: seq<OutboxEvent>): seq<OutboxEvent> {
    var sorted := SortBy(EventLe, events);
    SortBy(EventLe, Selected(sorted, |sorted|))
  }

  /** The owned signals of a flush of these events. */
  function FlushedOwned(events: seq<OutboxEvent>, lookup: Lookup): seq<OwnedSignal> {
    OwnedOf(SelectedEvents(events), lookup)
  }

  function FlushedCompetitors(events: seq<OutboxEvent>, lookup: Lookup): seq<CompetitorSignal> {
    CompetitorsOf(SelectedEvents(events), lookup)
  }

  lemma {:induction false} OwnedAreNamed(signals: seq<OwnedSignal>, lookup: Lookup)
    requires forall s :: s in signals ==> WellFormedOwned(s, lookup)
    ensures IdsName(AllPrimaries(signals), lookup.appById)
  {
    if signals != [] {
      assert Last(signals) in signals && forall s :: s in Init(signals) ==> s in signals;
      OwnedAreNamed(Init(signals), lookup);
      assert WellFormedOwned(Last(signals), lookup);
    }
  }

  lemma CompetitorsAreNamed(signals: seq<CompetitorSignal>, lookup: Lookup)
    requires forall s :: s in signals ==> WellFormedCompetitor(s, lookup)
    ensures FromLookup(signals, lookup.appById)
  {
  }

  /** The sections of the owned signals, built signal by signal. */
  method BuildOwnedSections(signals: seq<OwnedSignal>, ghost lookup: Lookup) returns (list: seq<Section>)
    requires forall s :: s in signals ==> WellFormedOwned(s, lookup)
    ensures list == SectionsOf(signals)
  {
    var sections := new Sections();
    for i := 0 to |signals|
      invariant sections.list == SectionsOf(signals[..i])
    {
      OwnedPrefix(signals, i, lookup);
      sections.AddOwnedSignal(signals[..i], signals[i], lookup.appById);
    }
    assert signals[..|signals|] == signals;
    list := sections.list;
  }

  lemma OwnedPrefix(signals: seq<OwnedSignal>, i: nat, lookup: Lookup)
    requires i < |signals| && forall s :: s in signals ==> WellFormedOwned(s, lookup)
    ensures signals[..i] + [signals[i]] == signals[..i + 1]
    ensures IdsName(AllPrimaries(signals[..i] + [signals[i]]), lookup.appById)
    ensures Sequences.Distinct(signals[i].primaries)
  {
    assert signals[..i] + [signals[i]] == signals[..i + 1];
    OwnedAreNamed(signals[..i + 1], lookup);
    assert WellFormedOwned(signals[i], lookup);
  }

  lemma CompetitorPrefix(signals: seq<CompetitorSignal>, i: nat, lookup: Lookup)
    requires i < |signals| && forall s :: s in signals ==> WellFormedCompetitor(s, lookup)
    ensures signals[..i] + [signals[i]] == signals[..i + 1]
    ensures FromLookup(signals[..i] + [signals[i]], lookup.appById)
  {
    assert signals[..i] + [signals[i]] == signals[..i + 1];
    CompetitorsAreNamed(signals[..i + 1], lookup);
  }

  /** The sections of the competitor signals, built signal by signal. */
  method BuildCompetitorSections(signals: seq<CompetitorSignal>, ghost lookup: Lookup) returns (list: seq<Section>)
    requires forall s :: s in signals ==> WellFormedCompetitor(s, lookup)
    ensures list == CompetitorSectionsOf(signals)
  {
    var sections := new Sections();
    for i := 0 to |signals|
      invariant sections.list == CompetitorSectionsOf(signals[..i])
    {
      CompetitorPrefix(signals, i, lookup);
      sections.AddCompetitorSignal(signals[..i], signals[i], lookup.appById);
    }
    assert signals[..|signals|] == signals;
    list := sections.list;
  }

  /** `assembleBatches`: select, classify, build, finish. */
  method AssembleBatches(events: seq<OutboxEvent>, lookup: Lookup, now: int, traffic: Option<Traffic>)
    returns (owned: Batch, competitors: Batch, skipped: map<SkipReason, nat>)
    requires Coherent(lookup)
    ensures owned == OwnedBatch(FlushedOwned(events, lookup), now, traffic)
    ensures competitors == CompetitorBatch(FlushedCompetitors(events, lookup), now)
    ensures forall r: SkipReason ::
              r in skipped && skipped[r] == CountReason(InvalidOf(SelectedEvents(events), lookup), r)
  {
    var kept := WithDeepestRatingDrops(SortBy(EventLe, events));
    var classification := new BatchClassification();
    classification.ClassifyBatch(kept, lookup);
    var selected := SortBy(EventLe, kept);
    ClassificationConserves(selected, lookup);
    var ownedSections := BuildOwnedSections(classification.owned, lookup);
    var competitorSections := BuildCompetitorSections(classification.competitors, lookup);
    var signals, others := classification.owned, classification.competitors;
    var apps := FinalizeSections(ownedSections);
    owned := Batch(OwnedApps, now, if signals == [] then now else signals[0].event.createdAt,
                   |signals|, |ownedSections|,
                   if traffic.Some? then Map(MovesByImpact(traffic.value), apps) else apps,
                   Map(PayloadOf, signals));
    competitors := Batch(CompetitorApps, now, if others == [] then now else others[0].event.createdAt,
                         |others|, |Unique(Map(CompetitorIdOf, others))|,
                         FinalizeSections(competitorSections),
                         Map(CompetitorPayload, others));
    skipped := classification.skipped;
  }

  /** With distinct ids the batches do not depend on the order the events arrive in. */
  lemma AssemblyForgetsOrder(events: seq<OutboxEvent>, shuffled: seq<OutboxEvent>)
    requires multiset(events) == multiset(shuffled)
    requires forall i, j :: 0 <= i < |events| && 0 <= j < |events| && events[i].id == events[j].id ==>
                       events[i] == events[j]
    ensures SelectedEvents(events) == SelectedEvents(shuffled)
    ensures forall lookup :: FlushedOwned(events, lookup) == FlushedOwned(shuffled, lookup)
    ensures forall lookup :: FlushedCompetitors(events, lookup) == FlushedCompetitors(shuffled, lookup)
  {
    ClassificationForgetsOrder(events, shuffled);
  }

  // Every signal is in one list of each of its apps

  function Reaches(app: App): OwnedSignal -> bool {
    (s: OwnedSignal) => app in s.primaries
  }

  function ListSizes(section: Section): nat {
    |section.availability| + |section.rankDrops| + |section.rankImprovements| + |section.rankMilestones| +
    |section.firstRankings| + |section.overtakes| + |section.chartMoves| + |section.serpEntrants| +
    |section.changes| + |section.ratingDrops| + |section.negativeReviews| + |section.newReviews| +
    |section.reviewSpikes| + |section.actions|
  }

  /** The lists of an app hold as many payloads as there are signals that reach it: each in exactly one. */
  lemma {:induction false} EachSignalListedOnce(signals: seq<OwnedSignal>, app: App)
    requires forall s :: s in signals ==> !s.event.payload.DigestWeekly?
    ensures ListSizes(SectionFor(signals, app)) == |Filter(Reaches(app), signals)|
  {
    if signals == [] {
      UnmetSectionIsEmpty(signals, app);
    } else {
      var rest, signal := Init(signals), Last(signals);
      assert signals == rest + [signal];
      EachSignalListedOnce(rest, app);
      forall kind: ListKind
        ensures ListIn(SectionFor(signals, app), kind)
             == if app in signal.primaries && ListOf(PayloadOf(signal)) == Some(kind)
                then ListIn(SectionFor(rest, app), kind) + [PayloadOf(signal)]
                else ListIn(SectionFor(rest, app), kind)
      {
        ListForAppend(rest, signal, app, kind);
        SectionLists(rest, app, kind);
        SectionLists(signals, app, kind);
      }
      GrownSection(SectionFor(rest, app), SectionFor(signals, app), PayloadOf(signal), app in signal.primaries);
      PushSize(SectionFor(rest, app), PayloadOf(signal));
    }
  }

  lemma PushSize(section: Section, payload: Payload)
    requires !payload.DigestWeekly?
    ensures ListSizes(Push(section, payload)) == ListSizes(section) + 1
  {
  }
}
