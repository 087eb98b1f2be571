/** What an assembled batch shows, in terms of its signals: which apps, which lists, in which order. */
module AlertSections {
  import opened Wrappers
  import opened Sequences
  import opened AlertPayloads
  import opened AlertBatch
  import opened AlertClassification
  import opened AlertAssembly
  import opened AlertBatchFilter
  import opened CompetitorBatchFilter

  /** Which payloads a list is for. */
  predicate IsFor(kind: ListKind, payload: Payload) {
    match kind
    case Availability => payload.AppDelisted? || payload.AppUnlistedMarket?
    case RankDrops => payload.RankDropped?
    case RankImprovements => payload.RankImproved?
    case RankMilestones => payload.RankMilestone?
    case FirstRankings => payload.RankFirst?
    case Overtakes => payload.RankOvertaken?
    case ChartMoves => payload.ChartEntered? || payload.ChartLeft? || payload.ChartMilestone?
    case SerpEntrants => payload.SerpEntrant?
    case Changes => payload.MetadataChanged?
    case RatingDrops => payload.RatingDropped?
    case NegativeReviews => payload.ReviewNegative?
    case NewReviews => payload.ReviewNew?
    case ReviewSpikes => payload.ReviewSpike?
    case Actions => payload.ActionOpened?
  }

  function ToldIf(app: App, kind: ListKind): OwnedSignal -> bool {
    (s: OwnedSignal) => app in s.primaries && IsFor(kind, s.event.payload)
  }

  /** The payloads for one list that reach an app, in the order of the signals. */
  function Told(signals: seq<OwnedSignal>, app: App, kind: ListKind): seq<Payload> {
    Map(PayloadOf, Filter(ToldIf(app, kind), signals))
  }

  /** How loud a rank move is: its keyword's traffic, or 1, times the weight it moved by. */
  function Loudness(traffic: Traffic, payload: Payload): real {
    match payload
    case RankDropped(_, keyword, from, to, _, _, _) => Loud(traffic, keyword, Some(from), to)
    case RankImproved(_, keyword, before, position, _, _, _) => Loud(traffic, keyword, before, Some(position))
    case RankMilestone(_, keyword, before, to, _, _, _, _) => Loud(traffic, keyword, before, to)
    case RankFirst(_, keyword, position, _) => Loud(traffic, keyword, None, Some(position))
    case RankOvertaken(_, keyword, from, to, _) => Loud(traffic, keyword, Some(from), to)
    case _ => 0.0
  }

  function Loud(traffic: Traffic, keyword: Keyword, from: Option<int>, to: Option<int>): real {
    TrafficOf(traffic, keyword) * Moved(traffic, from, to)
  }

  function TrafficOf(traffic: Traffic, keyword: Keyword): real {
    if keyword.id in traffic.scores && traffic.scores[keyword.id].Some? then traffic.scores[keyword.id].value else 1.0
  }

  function Moved(traffic: Traffic, from: Option<int>, to: Option<int>): (distance: real)
    ensures distance >= 0.0
  {
    if traffic.weight(to) >= traffic.weight(from) then traffic.weight(to) - traffic.weight(from)
    else traffic.weight(from) - traffic.weight(to)
  }

  predicate IsMove(payload: Payload) {
    payload.RankDropped? || payload.RankImproved? || payload.RankMilestone? || payload.RankFirst? ||
    payload.RankOvertaken?
  }

  /** The louder move first; of equally loud ones the smaller keyword, by text and then by id. */
  predicate LouderFirst(traffic: Traffic, left: Payload, right: Payload)
    requires IsMove(left) && IsMove(right)
  {
    var (a, b) := (Loudness(traffic, left), Loudness(traffic, right));
    a > b || (a == b && (left.keyword.text < right.keyword.text
                         || (left.keyword.text == right.keyword.text && left.keyword.id <= right.keyword.id)))
  }

  lemma LoudIsImpact(traffic: Traffic, keyword: Keyword, from: Option<int>, to: Option<int>)
    ensures MoveImpact(traffic, keyword, from, to) == Loud(traffic, keyword, from, to)
  {
  }

  lemma LoudnessIsImpact(traffic: Traffic, payload: Payload)
    ensures ImpactOf(payload, traffic) == Loudness(traffic, payload)
  {
    forall keyword, from, to
      ensures MoveImpact(traffic, keyword, from, to) == Loud(traffic, keyword, from, to)
    {
      LoudIsImpact(traffic, keyword, from, to);
    }
  }

  lemma LouderIsImpact(traffic: Traffic, left: Payload, right: Payload)
    requires IsMove(left) && IsMove(right)
    ensures ImpactLe(traffic, left, right) <==> LouderFirst(traffic, left, right)
  {
    LoudnessIsImpact(traffic, left);
    LoudnessIsImpact(traffic, right);
    assert MoveKeyword(left) == left.keyword && MoveKeyword(right) == right.keyword;
  }

  /** With traffic the moves are listed loudest first, else in their order. */
  ghost predicate MovesListed(list: seq<Payload>, told: seq<Payload>, traffic: Option<Traffic>) {
    && (traffic.None? ==> list == told)
    && (traffic.Some? ==> multiset(list) == multiset(told) && LoudestFirst(traffic.value, list))
  }

  ghost predicate LoudestFirst(traffic: Traffic, list: seq<Payload>) {
    && (forall i :: 0 <= i < |list| ==> IsMove(list[i]))
    && (forall i, j :: 0 <= i < j < |list| ==> LouderFirst(traffic, list[i], list[j]))
  }

  /** Actions by priority, and by larger impact within one. */
  ghost predicate ActionsListed(list: seq<Payload>, told: seq<Payload>) {
    && multiset(list) == multiset(told)
    && (forall i :: 0 <= i < |list| ==> list[i].ActionOpened?)
    && (forall i, j :: 0 <= i < j < |list| ==>
          list[i].priority < list[j].priority || (list[i].priority == list[j].priority && list[i].impact >= list[j].impact))
  }

  /** The fourteen lists of an app hold the payloads of its signals, each by its kind. */
  ghost predicate Shows(section: Section, signals: seq<OwnedSignal>, traffic: Option<Traffic>, app: App) {
    && section.app == BatchApp(app.id, app.name, app.store, app.country) && section.competitors == []
    && ShowsMoves(section, signals, traffic, app)
    && ShowsRest(section, signals, app)
  }

  ghost predicate ShowsMoves(section: Section, signals: seq<OwnedSignal>, traffic: Option<Traffic>, app: App) {
    && MovesListed(section.rankDrops, Told(signals, app, RankDrops), traffic)
    && MovesListed(section.rankImprovements, Told(signals, app, RankImprovements), traffic)
    && MovesListed(section.rankMilestones, Told(signals, app, RankMilestones), traffic)
    && MovesListed(section.firstRankings, Told(signals, app, FirstRankings), traffic)
    && MovesListed(section.overtakes, Told(signals, app, Overtakes), traffic)
  }

  ghost predicate ShowsRest(section: Section, signals: seq<OwnedSignal>, app: App) {
    && section.availability == Told(signals, app, Availability)
    && section.chartMoves == Told(signals, app, ChartMoves)
    && section.serpEntrants == Told(signals, app, SerpEntrants)
    && section.changes == Told(signals, app, Changes)
    && section.ratingDrops == Told(signals, app, RatingDrops)
    && section.negativeReviews == Told(signals, app, NegativeReviews)
    && section.newReviews == Told(signals, app, NewReviews)
    && section.reviewSpikes == Told(signals, app, ReviewSpikes)
    && ActionsListed(section.actions, Told(signals, app, Actions))
  }

  lemma ListedFor(kind: ListKind, payload: Payload)
    ensures IsFor(kind, payload) <==> ListOf(payload) == Some(kind)
  {
  }

  lemma ToldByKind(signals: seq<OwnedSignal>, app: App, kind: ListKind)
    ensures ListFor(signals, app, kind) == Told(signals, app, kind)
    ensures forall p :: p in Told(signals, app, kind) ==> IsFor(kind, p)
  {
    forall s: OwnedSignal
      ensures Feeds(app, kind)(s) == ToldIf(app, kind)(s)
    {
      ListedFor(kind, s.event.payload);
    }
    FilterAgree(Feeds(app, kind), ToldIf(app, kind), signals);
    var fed := Filter(ToldIf(app, kind), signals);
    FilterMembers(ToldIf(app, kind), signals);
    forall p | p in Told(signals, app, kind)
      ensures IsFor(kind, p)
    {
      var i :| 0 <= i < |fed| && PayloadOf(fed[i]) == p;
      assert fed[i] in fed;
    }
  }

  lemma MovesInOrder(told: seq<Payload>, traffic: Option<Traffic>)
    requires forall p :: p in told ==> IsMove(p)
    ensures MovesListed(if traffic.Some? then SortBy(ImpactOrder(traffic.value), told) else told, told, traffic)
  {
    if traffic.Some? {
      var list := SortBy(ImpactOrder(traffic.value), told);
      SortPermutes(ImpactOrder(traffic.value), told);
      ListOrdersAreTotal(traffic.value);
      SortSorted(ImpactOrder(traffic.value), told);
      forall i | 0 <= i < |list|
        ensures IsMove(list[i])
      {
        SortedMember(ImpactOrder(traffic.value), told, list[i]);
      }
      forall i, j | 0 <= i < j < |list|
        ensures LouderFirst(traffic.value, list[i], list[j])
      {
        assert ImpactOrder(traffic.value)(list[i], list[j]);
        LouderIsImpact(traffic.value, list[i], list[j]);
      }
    }
  }

  lemma ActionsInOrder(told: seq<Payload>)
    requires forall p :: p in told ==> p.ActionOpened?
    ensures ActionsListed(SortBy(ActionLe, told), told)
  {
    var list := SortBy(ActionLe, told);
    SortPermutes(ActionLe, told);
    ListOrdersAreTotal(Traffic(map[], (x: Option<int>) => 0.0));
    SortSorted(ActionLe, told);
    forall i | 0 <= i < |list|
      ensures list[i].ActionOpened?
    {
      SortedMember(ActionLe, told, list[i]);
    }
    forall i, j | 0 <= i < j < |list|
      ensures list[i].priority < list[j].priority
              || (list[i].priority == list[j].priority && list[i].impact >= list[j].impact)
    {
      assert ActionLe(list[i], list[j]);
    }
  }

  /** A list by its order, when it has one, or as the signals come. */
  ghost predicate ListShown(kind: ListKind, list: seq<Payload>, told: seq<Payload>, traffic: Option<Traffic>) {
    if kind == Actions then ActionsListed(list, told)
    else if kind in {RankDrops, RankImprovements, RankMilestones, FirstRankings, Overtakes} then
      MovesListed(list, told, traffic)
    else list == told
  }

  lemma ArrangedShown(kind: ListKind, told: seq<Payload>, traffic: Option<Traffic>)
    requires forall p :: p in told ==> IsFor(kind, p)
    ensures ListShown(kind, Arranged(kind, traffic, told), told, traffic)
  {
    if kind == Actions {
      ActionsInOrder(told);
    } else if IsMoveList(kind) {
      MovesInOrder(told, traffic);
    }
  }

  ghost predicate AllShown(section: Section, signals: seq<OwnedSignal>, traffic: Option<Traffic>, app: App) {
    forall kind: ListKind :: ListShown(kind, ListIn(section, kind), Told(signals, app, kind), traffic)
  }

  lemma FinishedShows(signals: seq<OwnedSignal>, traffic: Option<Traffic>, app: App)
    ensures AllShown(FinishedFor(signals, traffic, app), signals, traffic, app)
  {
    var section := FinishedFor(signals, traffic, app);
    forall kind: ListKind
      ensures ListShown(kind, ListIn(section, kind), Told(signals, app, kind), traffic)
    {
      FinishedList(signals, traffic, app, kind);
      ToldByKind(signals, app, kind);
      ArrangedShown(kind, Told(signals, app, kind), traffic);
    }
  }

  lemma ShownMoves(section: Section, signals: seq<OwnedSignal>, traffic: Option<Traffic>, app: App)
    requires AllShown(section, signals, traffic, app)
    ensures ShowsMoves(section, signals, traffic, app)
  {
    assert ListShown(RankDrops, ListIn(section, RankDrops), Told(signals, app, RankDrops), traffic);
    assert ListShown(RankImprovements, ListIn(section, RankImprovements), Told(signals, app, RankImprovements), traffic);
    assert ListShown(RankMilestones, ListIn(section, RankMilestones), Told(signals, app, RankMilestones), traffic);
    assert ListShown(FirstRankings, ListIn(section, FirstRankings), Told(signals, app, FirstRankings), traffic);
    assert ListShown(Overtakes, ListIn(section, Overtakes), Told(signals, app, Overtakes), traffic);
  }

  lemma ShownRest(section: Section, signals: seq<OwnedSignal>, traffic: Option<Traffic>, app: App)
    requires AllShown(section, signals, traffic, app)
    ensures ShowsRest(section, signals, app)
  {
    assert ListShown(Availability, ListIn(section, Availability), Told(signals, app, Availability), traffic);
    assert ListShown(ChartMoves, ListIn(section, ChartMoves), Told(signals, app, ChartMoves), traffic);
    assert ListShown(SerpEntrants, ListIn(section, SerpEntrants), Told(signals, app, SerpEntrants), traffic);
    assert ListShown(Changes, ListIn(section, Changes), Told(signals, app, Changes), traffic);
    assert ListShown(RatingDrops, ListIn(section, RatingDrops), Told(signals, app, RatingDrops), traffic);
    assert ListShown(NegativeReviews, ListIn(section, NegativeReviews), Told(signals, app, NegativeReviews), traffic);
    assert ListShown(NewReviews, ListIn(section, NewReviews), Told(signals, app, NewReviews), traffic);
    assert ListShown(ReviewSpikes, ListIn(section, ReviewSpikes), Told(signals, app, ReviewSpikes), traffic);
    assert ListShown(Actions, ListIn(section, Actions), Told(signals, app, Actions), traffic);
  }

  lemma SectionShows(signals: seq<OwnedSignal>, traffic: Option<Traffic>, app: App)
    ensures Shows(FinishedFor(signals, traffic, app), signals, traffic, app)
  {
    FinishedFrame(signals, traffic, app);
    FinishedShows(signals, traffic, app);
    ShownMoves(FinishedFor(signals, traffic, app), signals, traffic, app);
    ShownRest(FinishedFor(signals, traffic, app), signals, traffic, app);
  }

  /** The apps of an owned batch: those that some signal names, each once, by name. */
  ghost predicate NamedApps(apps: seq<App>, signals: seq<OwnedSignal>) {
    && (forall app :: app in apps <==> exists i :: 0 <= i < |signals| && app in signals[i].primaries)
    && (forall i, j :: 0 <= i < j < |apps| ==> apps[i] != apps[j] && InNameOrder(apps[i], apps[j]))
  }

  lemma {:induction false} PrimariesOfSignals(signals: seq<OwnedSignal>, app: App)
    ensures app in AllPrimaries(signals) <==> exists i :: 0 <= i < |signals| && app in signals[i].primaries
  {
    if signals != [] {
      PrimariesOfSignals(Init(signals), app);
      assert forall i :: 0 <= i < |signals| - 1 ==> Init(signals)[i] == signals[i];
    }
  }

  lemma SortedByName(apps: seq<App>)
    requires Sequences.Distinct(apps)
    ensures var sorted := SortBy(AppLe, apps);
            && (forall app :: app in sorted <==> app in apps)
            && forall i, j :: 0 <= i < j < |sorted| ==> sorted[i] != sorted[j] && InNameOrder(sorted[i], sorted[j])
  {
    var sorted := SortBy(AppLe, apps);
    SortPermutes(AppLe, apps);
    DistinctArrangement(apps, sorted);
    OrdersAreTotal();
    SortSorted(AppLe, apps);
    forall i, j | 0 <= i < j < |sorted|
      ensures InNameOrder(sorted[i], sorted[j])
    {
      assert AppLe(sorted[i], sorted[j]);
    }
    forall app
      ensures app in sorted <==> app in apps
    {
      SortedMember(AppLe, apps, app);
    }
  }

  /**
   What the owned batch of signals is: its window and totals, its events in order, and one section
   for each app that a signal names, with exactly that app's payloads in each list.
   */
  lemma OwnedBatchShows(signals: seq<OwnedSignal>, now: int, traffic: Option<Traffic>) returns (apps: seq<App>)
    ensures NamedApps(apps, signals)
    ensures var batch := OwnedBatch(signals, now, traffic);
            && batch.scope == OwnedApps && batch.occurredAt == now
            && batch.from == (if signals == [] then now else signals[0].event.createdAt)
            && batch.totalEvents == |batch.events| == |signals| && batch.totalApps == |batch.apps| == |apps|
            && (forall i :: 0 <= i < |signals| ==> batch.events[i] == signals[i].event.payload)
            && (forall k :: 0 <= k < |apps| ==> Shows(batch.apps[k], signals, traffic, apps[k]))
  {
    apps := SortBy(AppLe, AppsOf(signals));
    AssembledApps(signals, now, traffic);
    SortedByName(AppsOf(signals));
    SortPermutes(AppLe, AppsOf(signals));
    forall app
      ensures app in apps <==> exists i :: 0 <= i < |signals| && app in signals[i].primaries
    {
      PrimariesOfSignals(signals, app);
    }
    forall k | 0 <= k < |apps|
      ensures Shows(OwnedBatch(signals, now, traffic).apps[k], signals, traffic, apps[k])
    {
      SectionShows(signals, traffic, apps[k]);
    }
  }

  // The competitor batch

  function NewsIf(primary: App, competitor: App, kind: ListKind): CompetitorSignal -> bool {
    (s: CompetitorSignal) => s.primary == primary && s.competitor == competitor && IsFor(kind, s.event.payload)
  }

  function NewsTold(signals: seq<CompetitorSignal>, primary: App, competitor: App, kind: ListKind): seq<Payload> {
    Map(CompetitorPayload, Filter(NewsIf(primary, competitor, kind), signals))
  }

  /** One competitor under a primary: the changes of its metadata, and when it left a store. */
  ghost predicate ShowsCompetitor(section: CompetitorSection, signals: seq<CompetitorSignal>, primary: App, app: App) {
    && section.app == BatchApp(app.id, app.name, app.store, app.country)
    && section.changes == NewsTold(signals, primary, app, Changes)
    && section.availability == NewsTold(signals, primary, app, Availability)
  }

  /** The competitors of one primary that signals are about, each once, by name. */
  ghost predicate ShowsPrimary(section: Section, signals: seq<CompetitorSignal>, primary: App, rivals: seq<App>) {
    && section.app == BatchApp(primary.id, primary.name, primary.store, primary.country)
    && section == Section(section.app, [], [], [], [], [], [], [], [], [], [], [], [], [], [], section.competitors)
    && (forall app :: app in rivals <==> exists s :: s in signals && s.primary == primary && s.competitor == app)
    && (forall i, j :: 0 <= i < j < |rivals| ==> rivals[i] != rivals[j] && InNameOrder(rivals[i], rivals[j]))
    && |section.competitors| == |rivals|
    && (forall k :: 0 <= k < |rivals| ==> ShowsCompetitor(section.competitors[k], signals, primary, rivals[k]))
  }

  lemma CompetitorShows(signals: seq<CompetitorSignal>, primary: App, app: App)
    ensures ShowsCompetitor(CompetitorFor(signals, primary, app), signals, primary, app)
  {
    FilterAgree(Tells(primary, app, false), NewsIf(primary, app, Changes), signals);
    FilterAgree(Tells(primary, app, true), NewsIf(primary, app, Availability), signals);
  }

  lemma PrimaryShows(signals: seq<CompetitorSignal>, primary: App) returns (rivals: seq<App>)
    ensures ShowsPrimary(FinishedPrimary(signals, primary), signals, primary, rivals)
  {
    rivals := SortBy(AppLe, CompetitorsUnder(signals, primary));
    CompetitorsSorted(signals, primary);
    SortedByName(CompetitorsUnder(signals, primary));
    forall app
      ensures app in rivals <==> exists s :: s in signals && s.primary == primary && s.competitor == app
    {
      SignalOfCompetitor(signals, primary, app);
    }
    forall k | 0 <= k < |rivals|
      ensures ShowsCompetitor(FinishedPrimary(signals, primary).competitors[k], signals, primary, rivals[k])
    {
      CompetitorShows(signals, primary, rivals[k]);
    }
  }

  ghost predicate HasPrimarySection(section: Section, signals: seq<CompetitorSignal>, primary: App) {
    exists rivals: seq<App> :: ShowsPrimary(section, signals, primary, rivals)
  }

  /** The primaries that signals are for, each once, by name. */
  ghost predicate NamedPrimaries(primaries: seq<App>, signals: seq<CompetitorSignal>) {
    && (forall app :: app in primaries <==> exists s :: s in signals && s.primary == app)
    && (forall i, j :: 0 <= i < j < |primaries| ==>
          primaries[i] != primaries[j] && InNameOrder(primaries[i], primaries[j]))
  }

  lemma PrimariesNamedInOrder(signals: seq<CompetitorSignal>)
    ensures NamedPrimaries(SortBy(AppLe, PrimariesOf(signals)), signals)
  {
    SortedByName(PrimariesOf(signals));
    forall app
      ensures app in SortBy(AppLe, PrimariesOf(signals)) <==> exists s :: s in signals && s.primary == app
    {
      SignalOfCompetitor(signals, app, app);
    }
  }

  lemma CompetitorSectionsShow(signals: seq<CompetitorSignal>, now: int, k: nat)
    requires k < |SortBy(AppLe, PrimariesOf(signals))|
    ensures k < |CompetitorBatch(signals, now).apps|
    ensures HasPrimarySection(CompetitorBatch(signals, now).apps[k], signals, SortBy(AppLe, PrimariesOf(signals))[k])
  {
    CompetitorBatchApps(signals, now);
    var rivals := PrimaryShows(signals, SortBy(AppLe, PrimariesOf(signals))[k]);
  }

  function Ids(s: seq<Id>): set<Id> {
    set x | x in s
  }

  lemma {:induction false} DistinctIds(s: seq<Id>)
    requires Sequences.Distinct(s)
    ensures |Ids(s)| == |s|
  {
    if s != [] {
      assert forall i :: 0 <= i < |s| - 1 ==> Init(s)[i] == s[i];
      DistinctIds(Init(s));
      assert Last(s) !in Init(s);
      assert Ids(s) == Ids(Init(s)) + {Last(s)} by {
        assert s == Init(s) + [Last(s)];
      }
    }
  }

  /** How many competitors signals are about. */
  lemma CompetitorsCounted(signals: seq<CompetitorSignal>)
    ensures |Unique(Map(CompetitorIdOf, signals))| == |set s | s in signals :: s.competitor.id|
  {
    var ids := Map(CompetitorIdOf, signals);
    DistinctIds(Unique(ids));
    var counted := set s | s in signals :: s.competitor.id;
    forall x: Id
      ensures x in Ids(Unique(ids)) <==> x in counted
    {
      if x in ids {
        var i :| 0 <= i < |ids| && ids[i] == x;
        assert signals[i] in signals;
      }
      if x in counted {
        var s :| s in signals && s.competitor.id == x;
        var i :| 0 <= i < |signals| && signals[i] == s;
        assert ids[i] == x;
      }
    }
    assert Ids(Unique(ids)) == counted;
  }

  /** What the competitor batch is: one section for each primary, with its competitors and their news. */
  lemma CompetitorBatchShows(signals: seq<CompetitorSignal>, now: int) returns (primaries: seq<App>)
    ensures NamedPrimaries(primaries, signals)
    ensures var batch := CompetitorBatch(signals, now);
            && batch.scope == CompetitorApps && batch.occurredAt == now
            && batch.from == (if signals == [] then now else signals[0].event.createdAt)
            && batch.totalEvents == |batch.events| == |signals| && |batch.apps| == |primaries|
            && batch.totalApps == |set s | s in signals :: s.competitor.id|
            && (forall i :: 0 <= i < |signals| ==> batch.events[i] == signals[i].event.payload)
            && (forall k :: 0 <= k < |primaries| ==> HasPrimarySection(batch.apps[k], signals, primaries[k]))
  {
    primaries := SortBy(AppLe, PrimariesOf(signals));
    CompetitorsCounted(signals);
    PrimariesNamedInOrder(signals);
    CompetitorBatchApps(signals, now);
    forall k | 0 <= k < |primaries|
      ensures HasPrimarySection(CompetitorBatch(signals, now).apps[k], signals, primaries[k])
    {
      CompetitorSectionsShow(signals, now, k);
    }
  }
}
