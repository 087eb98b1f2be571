/** What one subscription receives of a batch, and why that is the batch of the surviving signals. */
module AlertBatchFilter {
  import opened Wrappers
  import opened Sequences
  import opened AlertPayloads
  import opened AlertBatch
  import opened AlertAssembly

  datatype Options = Options(
    reviewScores: seq<int>,
    confirmDrops: bool,
    ratingDropTenths: Option<int>,
    rankThreshold: Option<int>)

  // withRatingDropsAtLeast

  function RatingGate(options: Options): Payload -> bool {
    (p: Payload) => KeepsRating(p, options.ratingDropTenths)
  }

  function RatedSection(options: Options, s: Section): Section {
    s.(ratingDrops := Filter(RatingGate(options), s.ratingDrops))
  }

  function RatingSection(options: Options): Section -> Section {
    (s: Section) => RatedSection(options, s)
  }

  function WithRatingDropsAtLeast(batch: Batch, options: Options): Batch {
    batch.(events := Filter(RatingGate(options), batch.events), apps := Map(RatingSection(options), batch.apps))
  }

  // withRankMovesAtLeast

  function RankGate(options: Options): Payload -> bool {
    (p: Payload) => options.rankThreshold.Some? ==> ReachesRankThreshold(p, options.rankThreshold.value)
  }

  /** The payload as the subscription sees it: rank moves carry its threshold. */
  function Rewritten(options: Options): Payload -> Payload {
    (p: Payload) => if options.rankThreshold.Some? then WithThreshold(p, options.rankThreshold.value) else p
  }

  function KeptMoves(options: Options, list: seq<Payload>): seq<Payload> {
    Map(Rewritten(options), Filter(RankGate(options), list))
  }

  function RankedSection(options: Options, s: Section): Section {
    s.(rankDrops := KeptMoves(options, s.rankDrops), rankImprovements := KeptMoves(options, s.rankImprovements))
  }

  function RankSection(options: Options): Section -> Section {
    (s: Section) => RankedSection(options, s)
  }

  function WithRankMovesAtLeast(batch: Batch, options: Options): Batch {
    if options.rankThreshold.None? then batch
    else batch.(events := KeptMoves(options, batch.events), apps := Map(RankSection(options), batch.apps))
  }

  // filterBatch

  /** A subscription's view of one batch: its scope, its kinds, its options and the reviews it lists. */
  datatype View = View(scope: Scope, allowed: set<Kind>, options: Options, listed: set<ReviewKey>)

  function Gate(view: View): Payload -> bool {
    (p: Payload) => PassesGate(p, view.listed, view.allowed, view.options.reviewScores)
  }

  function ChannelGate(view: View): Payload -> bool {
    (p: Payload) => ReachesChannel(p, view.options.confirmDrops)
  }

  function EventGate(view: View): Payload -> bool {
    (p: Payload) => PassesGate(p, view.listed, view.allowed, view.options.reviewScores)
                    && ReachesChannel(p, view.options.confirmDrops)
  }

  function AllowedGate(view: View): Payload -> bool {
    (p: Payload) => KindOf(p) in view.allowed
  }

  function OwnedOnly(view: View, kind: Kind, list: seq<Payload>): seq<Payload> {
    if view.scope == OwnedApps && kind in view.allowed then Filter(ChannelGate(view), list) else []
  }

  function AllowedOnly(view: View, list: seq<Payload>): seq<Payload> {
    if view.scope == OwnedApps then Filter(AllowedGate(view), list) else []
  }

  function WholeList(view: View, kind: Kind, list: seq<Payload>): seq<Payload> {
    if view.scope == OwnedApps && kind in view.allowed then list else []
  }

  function AllowedCompetitor(view: View, c: CompetitorSection): CompetitorSection {
    CompetitorSection(c.app, if MetadataChangedKind in view.allowed then c.changes else [],
                      Filter(AllowedGate(view), c.availability))
  }

  function CompetitorView(view: View): CompetitorSection -> CompetitorSection {
    (c: CompetitorSection) => AllowedCompetitor(view, c)
  }

  predicate CompetitorHasNews(section: CompetitorSection) {
    section.changes != [] || section.availability != []
  }

  function CompetitorsAllowed(view: View, competitors: seq<CompetitorSection>): seq<CompetitorSection> {
    Filter(CompetitorHasNews, Map(CompetitorView(view), competitors))
  }

  function ViewedSection(view: View, s: Section): Section {
    Section(
      s.app,
      AllowedOnly(view, s.availability),
      OwnedOnly(view, RankDroppedKind, s.rankDrops),
      OwnedOnly(view, RankImprovedKind, s.rankImprovements),
      OwnedOnly(view, RankMilestoneKind, s.rankMilestones),
      OwnedOnly(view, RankFirstKind, s.firstRankings),
      OwnedOnly(view, RankOvertakenKind, s.overtakes),
      AllowedOnly(view, s.chartMoves),
      WholeList(view, SerpEntrantKind, s.serpEntrants),
      WholeList(view, MetadataChangedKind, s.changes),
      OwnedOnly(view, RatingDroppedKind, s.ratingDrops),
      Filter(Gate(view), OwnedOnly(view, ReviewNegativeKind, s.negativeReviews)),
      Filter(Gate(view), OwnedOnly(view, ReviewNewKind, s.newReviews)),
      OwnedOnly(view, ReviewSpikeKind, s.reviewSpikes),
      WholeList(view, ActionOpenedKind, s.actions),
      if view.scope == CompetitorApps then CompetitorsAllowed(view, s.competitors) else [])
  }

  function SectionView(view: View): Section -> Section {
    (s: Section) => ViewedSection(view, s)
  }

  predicate HasContent(section: Section) {
    section.availability != [] || section.rankDrops != [] || section.rankImprovements != [] ||
    section.rankMilestones != [] || section.firstRankings != [] || section.overtakes != [] ||
    section.chartMoves != [] || section.serpEntrants != [] || section.changes != [] ||
    section.ratingDrops != [] || section.negativeReviews != [] || section.newReviews != [] ||
    section.reviewSpikes != [] || section.actions != [] || section.competitors != []
  }

  function CompetitorIds(apps: seq<Section>): seq<Id> {
    if apps == [] then [] else CompetitorIds(Init(apps)) + Map(CompetitorSectionId, Last(apps).competitors)
  }

  function FilterBatch(input: Batch, allowed: set<Kind>, options: Options): Option<Batch> {
    var batch := WithRankMovesAtLeast(WithRatingDropsAtLeast(input, options), options);
    var view := View(batch.scope, allowed, options, ListedReviews(batch.events, allowed, options.reviewScores));
    var events := Filter(EventGate(view), batch.events);
    var apps := Filter(HasContent, Map(SectionView(view), batch.apps));
    if events == [] || apps == [] then None
    else Some(batch.(apps := apps, events := events, totalEvents := |events|,
                     totalApps := if batch.scope == OwnedApps then |apps| else |Unique(CompetitorIds(apps))|))
  }

  // The surviving signals

  /** What the subscription keeps of the events of a batch. */
  predicate Survives(view: View, payload: Payload) {
    && KeepsRating(payload, view.options.ratingDropTenths)
    && RankGate(view.options)(payload)
    && EventGate(view)(payload)
  }

  function ViewOf(scope: Scope, events: seq<Payload>, allowed: set<Kind>, options: Options): View {
    View(scope, allowed, options, ListedReviews(events, allowed, options.reviewScores))
  }

  function OwnedSurvives(view: View): OwnedSignal -> bool {
    (s: OwnedSignal) => Survives(view, s.event.payload)
  }

  function OwnedRewritten(options: Options): OwnedSignal -> OwnedSignal {
    (s: OwnedSignal) => s.(event := s.event.(payload := Rewritten(options)(s.event.payload)))
  }

  /** The owned signals a subscription is left with, as it sees them. */
  function OwnedSurvivors(signals: seq<OwnedSignal>, view: View): seq<OwnedSignal> {
    Map(OwnedRewritten(view.options), Filter(OwnedSurvives(view), signals))
  }

  function PayloadSurvives(view: View): Payload -> bool {
    (p: Payload) => Survives(view, p)
  }

  /** A list of payloads as a subscription keeps and sees it. */
  function Surviving(view: View, list: seq<Payload>): seq<Payload> {
    Map(Rewritten(view.options), Filter(PayloadSurvives(view), list))
  }

  lemma RewritingKeepsRoute(view: View, payload: Payload)
    ensures var seen := Rewritten(view.options)(payload);
            && ListOf(seen) == ListOf(payload) && KindOf(seen) == KindOf(payload)
            && EventGate(view)(seen) == EventGate(view)(payload)
            && ChannelGate(view)(seen) == ChannelGate(view)(payload)
            && (forall traffic :: ImpactOf(seen, traffic) == ImpactOf(payload, traffic))
            && MoveKeyword(seen) == MoveKeyword(payload)
            && ActionRank(seen) == ActionRank(payload)
  {
  }

  /** Thresholds do not touch reviews, so the gate of the filtered events is the gate of all of them. */
  lemma ListedUnaffected(events: seq<Payload>, allowed: set<Kind>, options: Options)
    ensures ListedReviews(KeptMoves(options, Filter(RatingGate(options), events)), allowed, options.reviewScores)
         == ListedReviews(events, allowed, options.reviewScores)
  {
    var rated := Filter(RatingGate(options), events);
    var ranked := Filter(RankGate(options), rated);
    FilterMembers(RatingGate(options), events);
    FilterMembers(RankGate(options), rated);
    var kept := KeptMoves(options, rated);
    forall p: Payload | p.ReviewNew?
      ensures p in kept <==> p in events
    {
      if p in ranked {
        var i :| 0 <= i < |ranked| && ranked[i] == p;
        assert kept[i] == p;
      }
    }
  }

  /** The events of a filtered batch are the surviving payloads. */
  lemma EventsFiltered(events: seq<Payload>, view: View)
    ensures Filter(EventGate(view), KeptMoves(view.options, Filter(RatingGate(view.options), events)))
         == Surviving(view, events)
  {
    var o := view.options;
    var rated := Filter(RatingGate(o), events);
    var ranked := Filter(RankGate(o), rated);
    forall p
      ensures EventGate(view)(Rewritten(o)(p)) == EventGate(view)(p)
    {
      RewritingKeepsRoute(view, p);
    }
    FilterOfMap(Rewritten(o), EventGate(view), EventGate(view), ranked);
    var both := (p: Payload) => RankGate(o)(p) && RatingGate(o)(p);
    FilterTwice(RankGate(o), RatingGate(o), both, events);
    FilterTwice(EventGate(view), both, PayloadSurvives(view), events);
  }

  /** The list of an app among the survivors is what survives of its list. */
  lemma ListSurvives(signals: seq<OwnedSignal>, view: View, app: App, kind: ListKind)
    ensures ListFor(OwnedSurvivors(signals, view), app, kind) == Surviving(view, ListFor(signals, app, kind))
  {
    var o := view.options;
    var left := Filter(OwnedSurvives(view), signals);
    forall s: OwnedSignal
      ensures Feeds(app, kind)(OwnedRewritten(o)(s)) == Feeds(app, kind)(s)
    {
      RewritingKeepsRoute(view, s.event.payload);
    }
    FilterOfMap(OwnedRewritten(o), Feeds(app, kind), Feeds(app, kind), left);
    var both := (s: OwnedSignal) => Feeds(app, kind)(s) && OwnedSurvives(view)(s);
    FilterTwice(Feeds(app, kind), OwnedSurvives(view), both, signals);
    FilterTwice(OwnedSurvives(view), Feeds(app, kind), both, signals);
    var fed := Filter(Feeds(app, kind), signals);
    FilterOfMap(PayloadOf, PayloadSurvives(view), OwnedSurvives(view), fed);
    var kept := Filter(OwnedSurvives(view), fed);
    assert Map(PayloadOf, Map(OwnedRewritten(o), kept)) == Map(Rewritten(o), Map(PayloadOf, kept));
  }

  // One list of one section

  /** A section as the filter leaves it. */
  function PipedSection(view: View, s: Section): Section {
    var rated := RatedSection(view.options, s);
    ViewedSection(view, if view.options.rankThreshold.None? then rated else RankedSection(view.options, rated))
  }

  function SectionPipe(view: View): Section -> Section {
    (s: Section) => PipedSection(view, s)
  }

  function RankedOnly(view: View, kind: Kind, list: seq<Payload>): seq<Payload> {
    OwnedOnly(view, kind, if view.options.rankThreshold.None? then list else KeptMoves(view.options, list))
  }

  /** What the filter does to each kind of list. */
  function ListPipe(view: View, kind: ListKind, list: seq<Payload>): seq<Payload> {
    match kind
    case Availability => AllowedOnly(view, list)
    case RankDrops => RankedOnly(view, RankDroppedKind, list)
    case RankImprovements => RankedOnly(view, RankImprovedKind, list)
    case RankMilestones => OwnedOnly(view, RankMilestoneKind, list)
    case FirstRankings => OwnedOnly(view, RankFirstKind, list)
    case Overtakes => OwnedOnly(view, RankOvertakenKind, list)
    case ChartMoves => AllowedOnly(view, list)
    case SerpEntrants => WholeList(view, SerpEntrantKind, list)
    case Changes => WholeList(view, MetadataChangedKind, list)
    case RatingDrops => OwnedOnly(view, RatingDroppedKind, Filter(RatingGate(view.options), list))
    case NegativeReviews => Filter(Gate(view), OwnedOnly(view, ReviewNegativeKind, list))
    case NewReviews => Filter(Gate(view), OwnedOnly(view, ReviewNewKind, list))
    case ReviewSpikes => OwnedOnly(view, ReviewSpikeKind, list)
    case Actions => WholeList(view, ActionOpenedKind, list)
  }

  lemma PipedList(view: View, section: Section, kind: ListKind)
    ensures ListIn(PipedSection(view, section), kind) == ListPipe(view, kind, ListIn(section, kind))
  {
  }

  /** Every payload of a list belongs there. */
  ghost predicate Holds(kind: ListKind, list: seq<Payload>) {
    forall p :: p in list ==> ListOf(p) == Some(kind)
  }

  /** A gate that decides as survival does, over payloads that carry no threshold, leaves the survivors. */
  lemma PlainListSurvives(view: View, list: seq<Payload>, gate: Payload -> bool)
    requires forall p :: p in list ==> gate(p) == Survives(view, p) && Rewritten(view.options)(p) == p
    ensures Filter(gate, list) == Surviving(view, list)
  {
    FilterAgree(gate, PayloadSurvives(view), list);
    FilterMembers(PayloadSurvives(view), list);
    var kept := Filter(PayloadSurvives(view), list);
    assert forall i :: 0 <= i < |kept| ==> kept[i] in kept;
  }

  lemma {:induction false} NothingSurvives(view: View, list: seq<Payload>)
    requires forall p :: p in list ==> !Survives(view, p)
    ensures Surviving(view, list) == []
  {
    FilterMembers(PayloadSurvives(view), list);
    if list != [] {
      assert Last(list) in list;
      assert forall p :: p in Init(list) ==> p in list;
      NothingSurvives(view, Init(list));
    }
  }

  lemma RankedListSurvives(view: View, kind: ListKind, list: seq<Payload>)
    requires view.scope == OwnedApps && Holds(kind, list) && kind in {RankDrops, RankImprovements}
    ensures ListPipe(view, kind, list) == Surviving(view, list)
  {
    var o := view.options;
    var wanted := if kind == RankDrops then RankDroppedKind else RankImprovedKind;
    if wanted !in view.allowed {
      NothingSurvives(view, list);
    } else if o.rankThreshold.None? {
      PlainListSurvives(view, list, ChannelGate(view));
    } else {
      AllowedMovesSurvive(view, list);
    }
  }

  lemma AllowedMovesSurvive(view: View, list: seq<Payload>)
    requires forall p :: p in list ==> (p.RankDropped? || p.RankImproved?) && KindOf(p) in view.allowed
    ensures Filter(ChannelGate(view), KeptMoves(view.options, list)) == Surviving(view, list)
  {
    var o := view.options;
    forall p
      ensures ChannelGate(view)(Rewritten(o)(p)) == ChannelGate(view)(p)
    {
      RewritingKeepsRoute(view, p);
    }
    FilterOfMap(Rewritten(o), ChannelGate(view), ChannelGate(view), Filter(RankGate(o), list));
    FilterTwice(ChannelGate(view), RankGate(o), PayloadSurvives(view), list);
  }

  /** Each list is filtered by its own rule, and each rule is survival on the payloads it meets. */
  lemma PipeIsSurvival(view: View, kind: ListKind, list: seq<Payload>)
    requires view.scope == OwnedApps && Holds(kind, list)
    ensures ListPipe(view, kind, list) == Surviving(view, list)
  {
    match kind
    case RankDrops => RankedListSurvives(view, kind, list);
    case RankImprovements => RankedListSurvives(view, kind, list);
    case Availability => PlainListSurvives(view, list, AllowedGate(view));
    case ChartMoves => PlainListSurvives(view, list, AllowedGate(view));
    case RankMilestones => OwnedListSurvives(view, RankMilestoneKind, list);
    case FirstRankings => OwnedListSurvives(view, RankFirstKind, list);
    case Overtakes => OwnedListSurvives(view, RankOvertakenKind, list);
    case ReviewSpikes => OwnedListSurvives(view, ReviewSpikeKind, list);
    case SerpEntrants => WholeListSurvives(view, SerpEntrantKind, list);
    case Changes => WholeListSurvives(view, MetadataChangedKind, list);
    case Actions => WholeListSurvives(view, ActionOpenedKind, list);
    case RatingDrops => RatingListSurvives(view, list);
    case NegativeReviews => ReviewListSurvives(view, ReviewNegativeKind, list);
    case NewReviews => ReviewListSurvives(view, ReviewNewKind, list);
  }

  lemma OwnedListSurvives(view: View, wanted: Kind, list: seq<Payload>)
    requires view.scope == OwnedApps && forall p :: p in list ==> KindOf(p) == wanted
    requires wanted in {RankMilestoneKind, RankFirstKind, RankOvertakenKind, ReviewSpikeKind}
    ensures OwnedOnly(view, wanted, list) == Surviving(view, list)
  {
    if wanted in view.allowed {
      PlainListSurvives(view, list, ChannelGate(view));
    } else {
      NothingSurvives(view, list);
    }
  }

  lemma WholeListSurvives(view: View, wanted: Kind, list: seq<Payload>)
    requires view.scope == OwnedApps && forall p :: p in list ==> KindOf(p) == wanted
    requires wanted in {SerpEntrantKind, MetadataChangedKind, ActionOpenedKind}
    ensures WholeList(view, wanted, list) == Surviving(view, list)
  {
    if wanted in view.allowed {
      FilterAll(PayloadSurvives(view), list);
      assert forall i :: 0 <= i < |list| ==> list[i] in list;
    } else {
      NothingSurvives(view, list);
    }
  }

  lemma RatingListSurvives(view: View, list: seq<Payload>)
    requires view.scope == OwnedApps && forall p :: p in list ==> p.RatingDropped?
    ensures OwnedOnly(view, RatingDroppedKind, Filter(RatingGate(view.options), list)) == Surviving(view, list)
  {
    if RatingDroppedKind in view.allowed {
      var both := (p: Payload) => ChannelGate(view)(p) && RatingGate(view.options)(p);
      FilterTwice(ChannelGate(view), RatingGate(view.options), both, list);
      PlainListSurvives(view, list, both);
    } else {
      NothingSurvives(view, list);
    }
  }

  lemma ReviewListSurvives(view: View, wanted: Kind, list: seq<Payload>)
    requires view.scope == OwnedApps && forall p :: p in list ==> KindOf(p) == wanted
    requires wanted in {ReviewNegativeKind, ReviewNewKind}
    ensures Filter(Gate(view), OwnedOnly(view, wanted, list)) == Surviving(view, list)
  {
    if wanted in view.allowed {
      var both := (p: Payload) => Gate(view)(p) && ChannelGate(view)(p);
      FilterTwice(Gate(view), ChannelGate(view), both, list);
      PlainListSurvives(view, list, both);
    } else {
      NothingSurvives(view, list);
    }
  }

  // The order inside a list

  predicate IsMoveList(kind: ListKind) {
    kind in {RankDrops, RankImprovements, RankMilestones, FirstRankings, Overtakes}
  }

  /** A list in the order a finished section shows it. */
  function Arranged(kind: ListKind, traffic: Option<Traffic>, list: seq<Payload>): seq<Payload> {
    if kind == Actions then SortBy(ActionLe, list)
    else if IsMoveList(kind) && traffic.Some? then SortBy(ImpactOrder(traffic.value), list)
    else list
  }

  /** The section of an app in the assembled batch. */
  function FinishedFor(signals: seq<OwnedSignal>, traffic: Option<Traffic>, app: App): Section {
    var section := FinalizeSection(SectionFor(signals, app));
    if traffic.Some? then MovedSection(traffic.value, section) else section
  }

  function FinishedSection(signals: seq<OwnedSignal>, traffic: Option<Traffic>): App -> Section {
    (app: App) => FinishedFor(signals, traffic, app)
  }

  lemma FinishedList(signals: seq<OwnedSignal>, traffic: Option<Traffic>, app: App, kind: ListKind)
    ensures ListIn(FinishedFor(signals, traffic, app), kind) == Arranged(kind, traffic, ListFor(signals, app, kind))
  {
    FinishedListOf(SectionFor(signals, app), traffic, kind);
    SectionLists(signals, app, kind);
  }

  lemma FinishedListOf(section: Section, traffic: Option<Traffic>, kind: ListKind)
    ensures var finished := FinalizeSection(section);
            ListIn(if traffic.Some? then MovedSection(traffic.value, finished) else finished, kind)
            == Arranged(kind, traffic, ListIn(section, kind))
  {
  }

  lemma ListOrdersAreTotal(traffic: Traffic)
    ensures TotalPreorder(ActionLe) && TotalPreorder(ImpactOrder(traffic))
  {
  }

  /** Sorting a list and keeping its survivors may be done in either order. */
  lemma SurvivorsOfSorted(view: View, le: (Payload, Payload) -> bool, list: seq<Payload>)
    requires TotalPreorder(le)
    requires forall p, q :: le(Rewritten(view.options)(p), Rewritten(view.options)(q)) == le(p, q)
    ensures Surviving(view, SortBy(le, list)) == SortBy(le, Surviving(view, list))
  {
    FilterOfSort(le, PayloadSurvives(view), list);
    MapOfSort(Rewritten(view.options), le, le, Filter(PayloadSurvives(view), list));
  }

  lemma ArrangedSurvives(view: View, kind: ListKind, traffic: Option<Traffic>, list: seq<Payload>)
    ensures Surviving(view, Arranged(kind, traffic, list)) == Arranged(kind, traffic, Surviving(view, list))
  {
    forall p
      ensures var seen := Rewritten(view.options)(p);
              ActionRank(seen) == ActionRank(p) && MoveKeyword(seen) == MoveKeyword(p) &&
              forall t :: ImpactOf(seen, t) == ImpactOf(p, t)
    {
      RewritingKeepsRoute(view, p);
    }
    if kind == Actions {
      ListOrdersAreTotal(Traffic(map[], (x: Option<int>) => 0.0));
      SurvivorsOfSorted(view, ActionLe, list);
    } else if IsMoveList(kind) && traffic.Some? {
      ListOrdersAreTotal(traffic.value);
      SurvivorsOfSorted(view, ImpactOrder(traffic.value), list);
    }
  }

  lemma ArrangedHolds(signals: seq<OwnedSignal>, app: App, kind: ListKind, traffic: Option<Traffic>)
    ensures Holds(kind, Arranged(kind, traffic, ListFor(signals, app, kind)))
  {
    var fed := Filter(Feeds(app, kind), signals);
    FilterMembers(Feeds(app, kind), signals);
    var list := ListFor(signals, app, kind);
    forall p | p in list
      ensures ListOf(p) == Some(kind)
    {
      var i :| 0 <= i < |list| && list[i] == p;
      assert fed[i] in fed;
    }
    SortPermutes(ActionLe, list);
    if traffic.Some? {
      SortPermutes(ImpactOrder(traffic.value), list);
    }
  }

  /** Filtering the finished section of an app gives the finished section of the survivors. */
  lemma SectionSurvives(signals: seq<OwnedSignal>, view: View, traffic: Option<Traffic>, app: App)
    requires view.scope == OwnedApps
    ensures PipedSection(view, FinishedFor(signals, traffic, app))
         == FinishedFor(OwnedSurvivors(signals, view), traffic, app)
  {
    var before, after := FinishedFor(signals, traffic, app), FinishedFor(OwnedSurvivors(signals, view), traffic, app);
    forall kind: ListKind
      ensures ListIn(PipedSection(view, before), kind) == ListIn(after, kind)
    {
      PipedList(view, before, kind);
      FinishedList(signals, traffic, app, kind);
      FinishedList(OwnedSurvivors(signals, view), traffic, app, kind);
      ArrangedHolds(signals, app, kind, traffic);
      PipeIsSurvival(view, kind, Arranged(kind, traffic, ListFor(signals, app, kind)));
      ArrangedSurvives(view, kind, traffic, ListFor(signals, app, kind));
      ListSurvives(signals, view, app, kind);
    }
    FinishedFrame(signals, traffic, app);
    FinishedFrame(OwnedSurvivors(signals, view), traffic, app);
    SameLists(PipedSection(view, before), after);
  }

  lemma FinishedFrame(signals: seq<OwnedSignal>, traffic: Option<Traffic>, app: App)
    ensures var section := FinishedFor(signals, traffic, app);
            section.app == ToBatchApp(app) && section.competitors == []
  {
  }

  // The whole batch

  /**
   Sorting apps, giving each its section and dropping the empty ones: the same as sorting only
   the apps that keep something.
   */
  lemma Regroup<S>(f: App -> S, g: App -> S, has: S -> bool, apps: seq<App>, left: seq<App>, byId: map<Id, App>)
    requires IdsName(apps, byId) && Sequences.Distinct(apps) && Sequences.Distinct(left)
    requires forall a :: a in left ==> a in apps
    requires forall a :: a in apps ==> f(a) == g(a) && (has(g(a)) <==> a in left)
    ensures Filter(has, Map(f, SortBy(AppLe, apps))) == Map(g, SortBy(AppLe, left))
  {
    OrdersAreTotal();
    var sorted := SortBy(AppLe, apps);
    var keeps := (a: App) => has(f(a));
    SortPermutes(AppLe, apps);
    FilterOfMap(f, has, keeps, sorted);
    FilterOfSort(AppLe, keeps, apps);
    FilterMembers(keeps, apps);
    FilterDistinct(keeps, apps);
    SameElements(Filter(keeps, apps), left);
    NamesTellApart(Filter(keeps, apps), byId);
    SortForgetsOrder(AppLe, Filter(keeps, apps), left);
    SortPermutes(AppLe, left);
    MapAgree(f, g, SortBy(AppLe, left));
  }

  lemma NamesTellApart(apps: seq<App>, byId: map<Id, App>)
    requires IdsName(apps, byId)
    ensures Antisymmetric(AppLe, apps)
  {
    forall i, j | 0 <= i < |apps| && 0 <= j < |apps| && AppLe(apps[i], apps[j]) && AppLe(apps[j], apps[i])
      ensures apps[i] == apps[j]
    {
      assert apps[i] in apps && apps[j] in apps;
      assert apps[i].id == apps[j].id;
    }
  }

  function FinalSection(signals: seq<OwnedSignal>): App -> Section {
    (app: App) => FinalizeSection(SectionFor(signals, app))
  }

  lemma FinalSectionApp(signals: seq<OwnedSignal>, app: App)
    ensures FinalSection(signals)(app).app == ToBatchApp(app)
  {
  }

  lemma AssembledApps(signals: seq<OwnedSignal>, now: int, traffic: Option<Traffic>)
    ensures OwnedBatch(signals, now, traffic).apps
         == Map(FinishedSection(signals, traffic), SortBy(AppLe, AppsOf(signals)))
  {
    var apps, final := AppsOf(signals), FinalSection(signals);
    MapOfMap(SectionOf(signals), FinalizeSection, final, apps);
    forall a, b | a in apps && b in apps
      ensures SectionLe(final(a), final(b)) == AppLe(a, b)
    {
      FinalSectionApp(signals, a);
      FinalSectionApp(signals, b);
    }
    MapOfSort(final, AppLe, SectionLe, apps);
    if traffic.Some? {
      MapOfMap(final, MovesByImpact(traffic.value), FinishedSection(signals, traffic), SortBy(AppLe, apps));
    } else {
      MapAgree(final, FinishedSection(signals, traffic), SortBy(AppLe, apps));
    }
  }

  lemma WithoutThreshold(options: Options, list: seq<Payload>)
    requires options.rankThreshold.None?
    ensures KeptMoves(options, list) == list
  {
    FilterAll(RankGate(options), list);
  }

  /** The filter, step by step over whole batches, is one view of the events and one of each section. */
  lemma FilterInOneStep(input: Batch, allowed: set<Kind>, options: Options)
    ensures var view := ViewOf(input.scope, input.events, allowed, options);
            var events := Surviving(view, input.events);
            var apps := Filter(HasContent, Map(SectionPipe(view), input.apps));
            FilterBatch(input, allowed, options)
            == if events == [] || apps == [] then None
               else Some(input.(apps := apps, events := events, totalEvents := |events|,
                                totalApps := if input.scope == OwnedApps then |apps|
                                             else |Unique(CompetitorIds(apps))|))
  {
    var batch := WithRankMovesAtLeast(WithRatingDropsAtLeast(input, options), options);
    var view := ViewOf(input.scope, input.events, allowed, options);
    var rated := Filter(RatingGate(options), input.events);
    if options.rankThreshold.None? {
      WithoutThreshold(options, rated);
    }
    assert batch.events == KeptMoves(options, rated);
    ListedUnaffected(input.events, allowed, options);
    EventsFiltered(input.events, view);
    assert Map(SectionView(view), batch.apps) == Map(SectionPipe(view), input.apps);
  }

  /** A finished section has content exactly when some signal reaches its app. */
  lemma ContentOfFinished(signals: seq<OwnedSignal>, traffic: Option<Traffic>, app: App)
    requires forall s :: s in signals ==> !s.event.payload.DigestWeekly?
    ensures HasContent(FinishedFor(signals, traffic, app)) <==> app in AppsOf(signals)
  {
    EachSignalListedOnce(signals, app);
    ReachedApps(signals, app);
    FinishedFrame(signals, traffic, app);
    FinishedSizes(SectionFor(signals, app), traffic);
  }

  lemma FinishedSizes(section: Section, traffic: Option<Traffic>)
    requires section.competitors == []
    ensures var finished := FinalizeSection(section);
            HasContent(if traffic.Some? then MovedSection(traffic.value, finished) else finished)
            <==> ListSizes(section) > 0
  {
  }

  lemma {:induction false} ReachedApps(signals: seq<OwnedSignal>, app: App)
    ensures Filter(Reaches(app), signals) != [] <==> app in AppsOf(signals)
  {
    if signals != [] {
      ReachedApps(Init(signals), app);
    }
  }

  lemma SurvivorApps(signals: seq<OwnedSignal>, view: View, app: App)
    ensures app in AppsOf(OwnedSurvivors(signals, view)) ==> app in AppsOf(signals)
  {
    ReachedApps(signals, app);
    ReachedApps(OwnedSurvivors(signals, view), app);
    var left := Filter(OwnedSurvives(view), signals);
    FilterOfMap(OwnedRewritten(view.options), Reaches(app), Reaches(app), left);
    FilterMembers(Reaches(app), left);
    FilterMembers(OwnedSurvives(view), signals);
    FilterMembers(Reaches(app), signals);
    if Filter(Reaches(app), left) != [] {
      assert Filter(Reaches(app), left)[0] in Filter(Reaches(app), signals);
    }
  }

  lemma SurvivorPayloads(signals: seq<OwnedSignal>, view: View)
    requires forall s :: s in signals ==> !s.event.payload.DigestWeekly?
    ensures Map(PayloadOf, OwnedSurvivors(signals, view)) == Surviving(view, Map(PayloadOf, signals))
    ensures forall s :: s in OwnedSurvivors(signals, view) ==> !s.event.payload.DigestWeekly?
  {
    var left := Filter(OwnedSurvives(view), signals);
    FilterOfMap(PayloadOf, PayloadSurvives(view), OwnedSurvives(view), signals);
    FilterMembers(OwnedSurvives(view), signals);
    assert Map(PayloadOf, OwnedSurvivors(signals, view)) == Map(Rewritten(view.options), Map(PayloadOf, left));
    forall s | s in OwnedSurvivors(signals, view)
      ensures !s.event.payload.DigestWeekly?
    {
      var i :| 0 <= i < |left| && OwnedRewritten(view.options)(left[i]) == s;
      assert left[i] in left;
    }
  }

  /** A batch without signals has no apps, and one with signals has some. */
  lemma SignalsHaveApps(signals: seq<OwnedSignal>)
    requires forall s :: s in signals ==> s.primaries != []
    ensures AppsOf(signals) == [] <==> signals == []
  {
    if signals != [] {
      assert Last(signals) in signals;
      assert Last(signals).primaries[0] in AllPrimaries(signals);
      assert Last(signals).primaries[0] in AppsOf(signals);
    }
  }

  lemma SurvivorsHavePrimaries(signals: seq<OwnedSignal>, view: View)
    requires forall s :: s in signals ==> s.primaries != []
    ensures forall s :: s in OwnedSurvivors(signals, view) ==> s.primaries != []
  {
    var left := Filter(OwnedSurvives(view), signals);
    FilterMembers(OwnedSurvives(view), signals);
    forall s | s in OwnedSurvivors(signals, view)
      ensures s.primaries != []
    {
      var i :| 0 <= i < |left| && OwnedRewritten(view.options)(left[i]) == s;
      assert left[i] in left;
    }
  }

  /**
   Filtering an assembled batch is assembling the surviving signals: the same sections in the same
   order with the same lists, the same events and counts; nothing is sent exactly when nothing
   survives. Only the window keeps the start of the whole batch.
   */
  lemma OwnedFilterCommutes(signals: seq<OwnedSignal>, lookup: Lookup, now: int, traffic: Option<Traffic>,
                            allowed: set<Kind>, options: Options)
    requires forall s :: s in signals ==> WellFormedOwned(s, lookup)
    ensures var batch := OwnedBatch(signals, now, traffic);
            var survivors := OwnedSurvivors(signals, ViewOf(OwnedApps, batch.events, allowed, options));
            FilterBatch(batch, allowed, options)
            == if survivors == [] then None
               else Some(OwnedBatch(survivors, now, traffic).(from := batch.from))
  {
    var batch := OwnedBatch(signals, now, traffic);
    var view := ViewOf(OwnedApps, batch.events, allowed, options);
    var survivors := OwnedSurvivors(signals, view);
    FilterInOneStep(batch, allowed, options);
    SurvivorPayloads(signals, view);
    OwnedSectionsCommute(signals, lookup, now, traffic, view);
    SurvivorsHavePrimaries(signals, view);
    SignalsHaveApps(survivors);
    AssembledApps(survivors, now, traffic);
  }

  lemma OwnedSectionsCommute(signals: seq<OwnedSignal>, lookup: Lookup, now: int, traffic: Option<Traffic>, view: View)
    requires forall s :: s in signals ==> WellFormedOwned(s, lookup)
    requires view.scope == OwnedApps
    ensures Filter(HasContent, Map(SectionPipe(view), OwnedBatch(signals, now, traffic).apps))
         == OwnedBatch(OwnedSurvivors(signals, view), now, traffic).apps
  {
    PipedApps(signals, now, traffic, view);
    SurvivorPayloads(signals, view);
    RegroupOwned(signals, lookup, traffic, view);
    AssembledApps(OwnedSurvivors(signals, view), now, traffic);
  }

  lemma PipedApps(signals: seq<OwnedSignal>, now: int, traffic: Option<Traffic>, view: View)
    ensures Map(SectionPipe(view), OwnedBatch(signals, now, traffic).apps)
         == Map(PipedFinished(signals, traffic, view), SortBy(AppLe, AppsOf(signals)))
  {
    AssembledApps(signals, now, traffic);
    MapOfMap(FinishedSection(signals, traffic), SectionPipe(view), PipedFinished(signals, traffic, view),
             SortBy(AppLe, AppsOf(signals)));
  }

  lemma RegroupOwned(signals: seq<OwnedSignal>, lookup: Lookup, traffic: Option<Traffic>, view: View)
    requires forall s :: s in signals ==> WellFormedOwned(s, lookup)
    requires forall s :: s in OwnedSurvivors(signals, view) ==> !s.event.payload.DigestWeekly?
    requires view.scope == OwnedApps
    ensures Filter(HasContent, Map(PipedFinished(signals, traffic, view), SortBy(AppLe, AppsOf(signals))))
         == Map(FinishedSection(OwnedSurvivors(signals, view), traffic),
                SortBy(AppLe, AppsOf(OwnedSurvivors(signals, view))))
  {
    var apps, left := AppsOf(signals), AppsOf(OwnedSurvivors(signals, view));
    var piped, finished := PipedFinished(signals, traffic, view), FinishedSection(OwnedSurvivors(signals, view), traffic);
    forall a | a in apps
      ensures piped(a) == finished(a) && (HasContent(finished(a)) <==> a in left)
    {
      PipedAgrees(signals, traffic, view, a);
    }
    forall a | a in left
      ensures a in apps
    {
      SurvivorApps(signals, view, a);
    }
    AppsNamed(signals, lookup);
    Regroup(piped, finished, HasContent, apps, left, lookup.appById);
  }

  lemma AppsNamed(signals: seq<OwnedSignal>, lookup: Lookup)
    requires forall s :: s in signals ==> WellFormedOwned(s, lookup)
    ensures IdsName(AppsOf(signals), lookup.appById)
  {
    OwnedAreNamed(signals, lookup);
  }

  function PipedFinished(signals: seq<OwnedSignal>, traffic: Option<Traffic>, view: View): App -> Section {
    (app: App) => PipedSection(view, FinishedFor(signals, traffic, app))
  }

  lemma PipedAgrees(signals: seq<OwnedSignal>, traffic: Option<Traffic>, view: View, app: App)
    requires view.scope == OwnedApps
    requires forall s :: s in OwnedSurvivors(signals, view) ==> !s.event.payload.DigestWeekly?
    ensures var finished := FinishedSection(OwnedSurvivors(signals, view), traffic);
            && PipedFinished(signals, traffic, view)(app) == finished(app)
            && (HasContent(finished(app)) <==> app in AppsOf(OwnedSurvivors(signals, view)))
  {
    SectionSurvives(signals, view, traffic, app);
    ContentOfFinished(OwnedSurvivors(signals, view), traffic, app);
  }
}
