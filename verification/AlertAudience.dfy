/** Who hears what: what a subscription keeps of a batch, in terms of the payloads and its options. */
module AlertAudience {
  import opened Wrappers
  import opened Sequences
  import opened AlertPayloads
  import opened AlertBatch
  import opened AlertAssembly
  import opened AlertBatchFilter
  import opened CompetitorBatchFilter
  import opened AlertSections
  import opened AlertDeliveryFlow

  /** A new review of an app that the subscription is told about. */
  predicate ToldAsNew(events: seq<Payload>, allowed: set<Kind>, scores: seq<int>, app: Id, fingerprint: int) {
    ReviewNewKind in allowed &&
    exists i :: 0 <= i < |events| && events[i].ReviewNew? && events[i].app == app
                && events[i].review.fingerprint == fingerprint && (scores == [] || events[i].review.score in scores)
  }

  /** A position change of at least the threshold; one from or to nowhere always is. */
  predicate FarEnough(from: Option<int>, to: Option<int>, threshold: Option<int>) {
    threshold.Some? && from.Some? && to.Some? ==> to.value - from.value >= threshold.value
  }

  /**
   Whether a subscription keeps a payload of these events. Confirmed drops go to those who ask for
   confirmation and the others to the rest, as do the moves that undo a drop or leave a milestone; a
   negative review that is already told as a new one is not told again.
   */
  predicate Hears(events: seq<Payload>, allowed: set<Kind>, options: Options, payload: Payload) {
    var (scores, confirms, threshold) := (options.reviewScores, options.confirmDrops, options.rankThreshold);
    match payload
    case MetadataChanged(_, _) => MetadataChangedKind in allowed
    case RankDropped(_, _, from, to, _, confirmed, _) =>
      RankDroppedKind in allowed && confirmed == confirms && FarEnough(Some(from), to, threshold)
    case RankImproved(_, _, before, position, _, undoesDrop, _) =>
      RankImprovedKind in allowed && !(undoesDrop && confirms) && FarEnough(Some(position), before, threshold)
    case RankMilestone(_, _, _, _, leaves, confirmed, undoesDrop, _) =>
      RankMilestoneKind in allowed && (if confirmed then confirms else !((leaves || undoesDrop) && confirms))
    case RankFirst(_, _, _, _) => RankFirstKind in allowed
    case RankOvertaken(_, _, _, _, _) => RankOvertakenKind in allowed
    case ReviewNegative(app, review, _) =>
      ReviewNegativeKind in allowed && !ToldAsNew(events, allowed, scores, app, review.fingerprint)
    case ReviewNew(_, review, _) => ReviewNewKind in allowed && (scores == [] || review.score in scores)
    case RatingDropped(_, _, tenths, _) =>
      RatingDroppedKind in allowed && tenths >= 1 &&
      (options.ratingDropTenths.Some? ==> tenths >= options.ratingDropTenths.value)
    case ReviewSpike(_, _) => ReviewSpikeKind in allowed
    case AppDelisted(_, _) => AppDelistedKind in allowed
    case AppUnlistedMarket(_, _) => AppUnlistedMarketKind in allowed
    case DigestWeekly(_) => DigestWeeklyKind in allowed
    case SerpEntrant(_, _) => SerpEntrantKind in allowed
    case ActionOpened(_, _, _, _) => ActionOpenedKind in allowed
    case ChartEntered(_, _) => ChartEnteredKind in allowed
    case ChartLeft(_, _) => ChartLeftKind in allowed
    case ChartMilestone(_, _) => ChartMilestoneKind in allowed
  }

  /** How the subscription sees it: drops and improvements carry its own threshold. */
  function Seen(options: Options, payload: Payload): Payload {
    match payload
    case RankDropped(app, keyword, from, to, threshold, confirmed, doc) =>
      RankDropped(app, keyword, from, to, options.rankThreshold.GetOr(threshold), confirmed, doc)
    case RankImproved(app, keyword, before, position, threshold, undoesDrop, doc) =>
      RankImproved(app, keyword, before, position, options.rankThreshold.GetOr(threshold), undoesDrop, doc)
    case _ => payload
  }

  lemma ListedIsTold(events: seq<Payload>, allowed: set<Kind>, scores: seq<int>, payload: Payload)
    requires payload.ReviewNegative?
    ensures ReviewKeyOf(payload) in ListedReviews(events, allowed, scores) <==>
              ToldAsNew(events, allowed, scores, payload.app, payload.review.fingerprint)
  {
    var listed := ListedReviews(events, allowed, scores);
    if ReviewKeyOf(payload) in listed {
      var p :| p in events && IsListedReview(p, allowed, scores) && ReviewKeyOf(p) == ReviewKeyOf(payload);
      var i :| 0 <= i < |events| && events[i] == p;
    }
    if ToldAsNew(events, allowed, scores, payload.app, payload.review.fingerprint) {
      var i :| 0 <= i < |events| && events[i].ReviewNew? && events[i].app == payload.app
               && events[i].review.fingerprint == payload.review.fingerprint
               && (scores == [] || events[i].review.score in scores);
      assert events[i] in events && IsListedReview(events[i], allowed, scores);
      assert ReviewKeyOf(events[i]) in listed;
    }
  }

  lemma SurvivalIsHearing(scope: Scope, events: seq<Payload>, allowed: set<Kind>, options: Options, payload: Payload)
    ensures Survives(ViewOf(scope, events, allowed, options), payload) <==> Hears(events, allowed, options, payload)
    ensures Rewritten(options)(payload) == Seen(options, payload)
  {
    if payload.ReviewNegative? {
      ListedIsTold(events, allowed, options.reviewScores, payload);
    }
  }

  function HeardIf(events: seq<Payload>, allowed: set<Kind>, options: Options): Payload -> bool {
    (p: Payload) => Hears(events, allowed, options, p)
  }

  function SeenBy(options: Options): Payload -> Payload {
    (p: Payload) => Seen(options, p)
  }

  /** What is left of any batch has exactly the events that are heard, as they are seen, and counts them. */
  lemma HeardEvents(input: Batch, allowed: set<Kind>, options: Options)
    requires FilterBatch(input, allowed, options).Some?
    ensures var left := FilterBatch(input, allowed, options).value;
            && left.events == Map(SeenBy(options), Filter(HeardIf(input.events, allowed, options), input.events))
            && left.totalEvents == |left.events| > 0
            && left.scope == input.scope && left.occurredAt == input.occurredAt && left.from == input.from
  {
    var view := ViewOf(input.scope, input.events, allowed, options);
    var heard := HeardIf(input.events, allowed, options);
    FilterInOneStep(input, allowed, options);
    forall p
      ensures PayloadSurvives(view)(p) == heard(p) && Rewritten(options)(p) == SeenBy(options)(p)
    {
      SurvivalIsHearing(input.scope, input.events, allowed, options, p);
    }
    FilterAgree(PayloadSurvives(view), heard, input.events);
    MapAgree(Rewritten(options), SeenBy(options), Filter(heard, input.events));
  }

  // The owned batch of signals

  function SignalHeardIf(events: seq<Payload>, allowed: set<Kind>, options: Options): OwnedSignal -> bool {
    (s: OwnedSignal) => Hears(events, allowed, options, s.event.payload)
  }

  function SignalSeenBy(options: Options): OwnedSignal -> OwnedSignal {
    (s: OwnedSignal) => s.(event := s.event.(payload := Seen(options, s.event.payload)))
  }

  /** The signals that the subscription hears, as it sees them. */
  function HeardSignals(signals: seq<OwnedSignal>, allowed: set<Kind>, options: Options): seq<OwnedSignal> {
    Map(SignalSeenBy(options), Filter(SignalHeardIf(Map(PayloadOf, signals), allowed, options), signals))
  }

  lemma HeardAreSurvivors(signals: seq<OwnedSignal>, now: int, traffic: Option<Traffic>, allowed: set<Kind>,
                          options: Options)
    ensures var batch := OwnedBatch(signals, now, traffic);
            OwnedSurvivors(signals, ViewOf(OwnedApps, batch.events, allowed, options))
            == HeardSignals(signals, allowed, options)
  {
    var events := Map(PayloadOf, signals);
    var view := ViewOf(OwnedApps, events, allowed, options);
    var heard := SignalHeardIf(events, allowed, options);
    forall s: OwnedSignal
      ensures OwnedSurvives(view)(s) == heard(s) && OwnedRewritten(options)(s) == SignalSeenBy(options)(s)
    {
      SurvivalIsHearing(OwnedApps, events, allowed, options, s.event.payload);
    }
    FilterAgree(OwnedSurvives(view), heard, signals);
    MapAgree(OwnedRewritten(options), SignalSeenBy(options), Filter(heard, signals));
  }

  /**
   Who hears what of an owned batch: nothing is sent when no signal is heard, else the batch of the
   heard signals, as `OwnedBatchShows` describes it, with the window of the whole one.
   */
  lemma OwnedIsHeard(signals: seq<OwnedSignal>, lookup: Lookup, now: int, traffic: Option<Traffic>, allowed: set<Kind>,
                     options: Options)
    requires forall s :: s in signals ==> WellFormedOwned(s, lookup)
    ensures var (batch, heard) := (OwnedBatch(signals, now, traffic), HeardSignals(signals, allowed, options));
            FilterBatch(batch, allowed, options)
            == if heard == [] then None else Some(OwnedBatch(heard, now, traffic).(from := batch.from))
  {
    HeardAreSurvivors(signals, now, traffic, allowed, options);
    OwnedFilterCommutes(signals, lookup, now, traffic, allowed, options);
  }

  // The competitor batch of signals

  function NewsHeardIf(allowed: set<Kind>): CompetitorSignal -> bool {
    (s: CompetitorSignal) =>
      (s.event.payload.MetadataChanged? && MetadataChangedKind in allowed)
      || (s.event.payload.AppDelisted? && AppDelistedKind in allowed)
      || (s.event.payload.AppUnlistedMarket? && AppUnlistedMarketKind in allowed)
  }

  lemma NewsIsHeard(view: View, allowed: set<Kind>, signal: CompetitorSignal)
    requires view.allowed == allowed
    requires signal.event.payload.MetadataChanged? || IsAvailability(signal.event.payload)
    ensures CompetitorSurvives(view)(signal) == NewsHeardIf(allowed)(signal)
  {
    NewsSurvivesByKind(view, signal.event.payload);
  }

  lemma HeardNewsSurvives(signals: seq<CompetitorSignal>, view: View, allowed: set<Kind>)
    requires News(signals) && view.allowed == allowed
    ensures CompetitorSurvivors(signals, view) == Filter(NewsHeardIf(allowed), signals)
  {
    forall s | s in signals
      ensures CompetitorSurvives(view)(s) == NewsHeardIf(allowed)(s)
    {
      NewsIsHeard(view, allowed, s);
    }
    FilterAgree(CompetitorSurvives(view), NewsHeardIf(allowed), signals);
  }

  /** Of a competitor batch the subscription hears the news of the kinds it allows, and nothing else matters. */
  lemma CompetitorIsHeard(signals: seq<CompetitorSignal>, lookup: Lookup, now: int, allowed: set<Kind>, options: Options)
    requires forall s :: s in signals ==> WellFormedCompetitor(s, lookup)
    ensures var (batch, heard) := (CompetitorBatch(signals, now), Filter(NewsHeardIf(allowed), signals));
            FilterBatch(batch, allowed, options)
            == if heard == [] then None else Some(CompetitorBatch(heard, now).(from := batch.from))
  {
    assert News(signals);
    HeardNewsSurvives(signals, ViewOf(CompetitorApps, CompetitorBatch(signals, now).events, allowed, options), allowed);
    CompetitorFilterCommutes(signals, lookup, now, allowed, options);
  }

  // The jobs of a claim

  /** What a subscription asks for; a rank threshold of its own counts when it is above the instance's. */
  function AsksOf(subscription: Subscription, instanceThreshold: int): Options {
    Options(subscription.reviewScores, subscription.confirmDrops, subscription.ratingDropTenths,
            Some(if subscription.rankDropThreshold.Some? && subscription.rankDropThreshold.value > instanceThreshold
                 then subscription.rankDropThreshold.value else instanceThreshold))
  }

  function JobOf(flushId: int, subscription: Subscription, ownedScope: bool, payload: Batch): Job {
    Job(JobId(flushId, subscription.webhook, subscription.id, ownedScope), payload)
  }

  lemma OwnedJob(signals: seq<OwnedSignal>, now: int, traffic: Option<Traffic>, from: int, flushId: int,
                 subscription: Subscription)
    ensures var batch := OwnedBatch(signals, now, traffic).(from := from);
            NodeOf(flushId, subscription, Some(batch)) == [JobOf(flushId, subscription, true, batch)]
  {
  }

  lemma CompetitorJob(signals: seq<CompetitorSignal>, now: int, from: int, flushId: int, subscription: Subscription)
    ensures var batch := CompetitorBatch(signals, now).(from := from);
            NodeOf(flushId, subscription, Some(batch)) == [JobOf(flushId, subscription, false, batch)]
  {
  }

  /** The job for what is heard of the owned apps, if anything is. */
  function OwnedJobs(heard: seq<OwnedSignal>, whole: Batch, now: int, traffic: Option<Traffic>, flushId: int,
                     subscription: Subscription): seq<Job>
  {
    if heard == [] then []
    else [JobOf(flushId, subscription, true, OwnedBatch(heard, now, traffic).(from := whole.from))]
  }

  function CompetitorJobs(heard: seq<CompetitorSignal>, whole: Batch, now: int, flushId: int,
                          subscription: Subscription): seq<Job>
  {
    if heard == [] then []
    else [JobOf(flushId, subscription, false, CompetitorBatch(heard, now).(from := whole.from))]
  }

  lemma OptionsAreAsks(subscription: Subscription, instanceThreshold: int)
    ensures OptionsOf(subscription, instanceThreshold) == AsksOf(subscription, instanceThreshold)
  {
  }

  /**
   The jobs of a subscription: one for the owned apps exactly when it hears one of their signals, then
   one for the competitors exactly when it hears news of them, each with the batch of what it hears.
   */
  lemma JobsAreHeard(owned: seq<OwnedSignal>, competitors: seq<CompetitorSignal>, lookup: Lookup, now: int,
                     traffic: Option<Traffic>, flushId: int, subscription: Subscription, instanceThreshold: int)
    requires forall s :: s in owned ==> WellFormedOwned(s, lookup)
    requires forall s :: s in competitors ==> WellFormedCompetitor(s, lookup)
    ensures var (own, others) := (OwnedBatch(owned, now, traffic), CompetitorBatch(competitors, now));
            var heard := HeardSignals(owned, subscription.events, AsksOf(subscription, instanceThreshold));
            var news := Filter(NewsHeardIf(subscription.events), competitors);
            JobsOf(CreateDeliveryFlows(own, others, flushId, subscription, instanceThreshold))
            == OwnedJobs(heard, own, now, traffic, flushId, subscription)
               + CompetitorJobs(news, others, now, flushId, subscription)
  {
    var options := AsksOf(subscription, instanceThreshold);
    OptionsAreAsks(subscription, instanceThreshold);
    var (own, others) := (OwnedBatch(owned, now, traffic), CompetitorBatch(competitors, now));
    OwnedIsHeard(owned, lookup, now, traffic, subscription.events, options);
    CompetitorIsHeard(competitors, lookup, now, subscription.events, options);
    OwnedJob(HeardSignals(owned, subscription.events, options), now, traffic, own.from, flushId, subscription);
    CompetitorJob(Filter(NewsHeardIf(subscription.events), competitors), now, others.from, flushId, subscription);
    JobsOfFlows(FilterBatch(own, subscription.events, options), FilterBatch(others, subscription.events, options),
                flushId, subscription);
  }

  // One message for one review

  /** Every payload that some list of a section of the app itself shows. */
  function ShownPayloads(section: Section): seq<Payload> {
    section.availability + section.rankDrops + section.rankImprovements + section.rankMilestones +
    section.firstRankings + section.overtakes + section.chartMoves + section.serpEntrants + section.changes +
    section.ratingDrops + section.negativeReviews + section.newReviews + section.reviewSpikes + section.actions
  }

  predicate NoNegative(payloads: seq<Payload>, app: Id, fingerprint: int) {
    forall i :: 0 <= i < |payloads| ==>
      !(payloads[i].ReviewNegative? && payloads[i].app == app && payloads[i].review.fingerprint == fingerprint)
  }

  lemma ToldArePayloads(signals: seq<OwnedSignal>, app: App, kind: ListKind, payload: Payload)
    requires payload in Told(signals, app, kind)
    ensures payload in Map(PayloadOf, signals)
  {
    var fed := Filter(ToldIf(app, kind), signals);
    FilterMembers(ToldIf(app, kind), signals);
    var i :| 0 <= i < |fed| && PayloadOf(fed[i]) == payload;
    assert fed[i] in signals;
    var k :| 0 <= k < |signals| && signals[k] == fed[i];
    assert Map(PayloadOf, signals)[k] == payload;
  }

  lemma ShownIsTold(section: Section, signals: seq<OwnedSignal>, traffic: Option<Traffic>, app: App, payload: Payload)
    requires Shows(section, signals, traffic, app) && payload in ShownPayloads(section)
    ensures payload in Map(PayloadOf, signals)
  {
    var kind := ListOfShown(section, payload);
    ListIsTold(section, signals, traffic, app, kind, payload);
    ToldArePayloads(signals, app, kind, payload);
  }

  lemma ListOfShown(section: Section, payload: Payload) returns (kind: ListKind)
    requires payload in ShownPayloads(section)
    ensures payload in ListIn(section, kind)
  {
    if payload in section.availability { kind := Availability; }
    else if payload in section.rankDrops { kind := RankDrops; }
    else if payload in section.rankImprovements { kind := RankImprovements; }
    else if payload in section.rankMilestones { kind := RankMilestones; }
    else if payload in section.firstRankings { kind := FirstRankings; }
    else if payload in section.overtakes { kind := Overtakes; }
    else if payload in section.chartMoves { kind := ChartMoves; }
    else if payload in section.serpEntrants { kind := SerpEntrants; }
    else if payload in section.changes { kind := Changes; }
    else if payload in section.ratingDrops { kind := RatingDrops; }
    else if payload in section.negativeReviews { kind := NegativeReviews; }
    else if payload in section.newReviews { kind := NewReviews; }
    else if payload in section.reviewSpikes { kind := ReviewSpikes; }
    else { kind := Actions; }
  }

  lemma ListIsTold(section: Section, signals: seq<OwnedSignal>, traffic: Option<Traffic>, app: App, kind: ListKind,
                   payload: Payload)
    requires Shows(section, signals, traffic, app) && payload in ListIn(section, kind)
    ensures payload in Told(signals, app, kind)
  {
    if kind == Actions {
      assert payload in multiset(section.actions);
    } else if kind in {RankDrops, RankImprovements, RankMilestones, FirstRankings, Overtakes} && traffic.Some? {
      assert payload in multiset(ListIn(section, kind));
    }
  }

  /** The events of a filtered owned batch are heard, and each section shows only events. */
  lemma HeardSections(signals: seq<OwnedSignal>, lookup: Lookup, now: int, traffic: Option<Traffic>, allowed: set<Kind>,
                      options: Options, k: nat, payload: Payload)
    requires forall s :: s in signals ==> WellFormedOwned(s, lookup)
    requires var left := FilterBatch(OwnedBatch(signals, now, traffic), allowed, options);
             left.Some? && k < |left.value.apps| && payload in ShownPayloads(left.value.apps[k])
    ensures payload in FilterBatch(OwnedBatch(signals, now, traffic), allowed, options).value.events
  {
    OwnedIsHeard(signals, lookup, now, traffic, allowed, options);
    var heard := HeardSignals(signals, allowed, options);
    var apps := OwnedBatchShows(heard, now, traffic);
    ShownIsTold(OwnedBatch(heard, now, traffic).apps[k], heard, traffic, apps[k], payload);
  }

  /**
   One message for one review: when a subscription's batch keeps a new review, no negative review
   of the same app and fingerprint is in its events or in any section.
   */
  lemma OneMessagePerReview(signals: seq<OwnedSignal>, lookup: Lookup, now: int, traffic: Option<Traffic>,
                            allowed: set<Kind>, options: Options, i: nat)
    requires forall s :: s in signals ==> WellFormedOwned(s, lookup)
    requires var left := FilterBatch(OwnedBatch(signals, now, traffic), allowed, options);
             left.Some? && i < |left.value.events| && left.value.events[i].ReviewNew?
    ensures var left := FilterBatch(OwnedBatch(signals, now, traffic), allowed, options).value;
            var (app, fingerprint) := (left.events[i].app, left.events[i].review.fingerprint);
            && NoNegative(left.events, app, fingerprint)
            && (forall k :: 0 <= k < |left.apps| ==> NoNegative(ShownPayloads(left.apps[k]), app, fingerprint))
  {
    var batch := OwnedBatch(signals, now, traffic);
    var left := FilterBatch(batch, allowed, options).value;
    var (app, fingerprint) := (left.events[i].app, left.events[i].review.fingerprint);
    HeardEvents(batch, allowed, options);
    NoSecondMessage(batch.events, allowed, options, i);
    forall k | 0 <= k < |left.apps|
      ensures NoNegative(ShownPayloads(left.apps[k]), app, fingerprint)
    {
      var shown := ShownPayloads(left.apps[k]);
      forall n | 0 <= n < |shown|
        ensures !(shown[n].ReviewNegative? && shown[n].app == app && shown[n].review.fingerprint == fingerprint)
      {
        assert shown[n] in shown;
        HeardSections(signals, lookup, now, traffic, allowed, options, k, shown[n]);
        var m :| 0 <= m < |left.events| && left.events[m] == shown[n];
      }
    }
  }

  lemma NoSecondMessage(events: seq<Payload>, allowed: set<Kind>, options: Options, i: nat)
    requires i < |Filter(HeardIf(events, allowed, options), events)|
    requires Map(SeenBy(options), Filter(HeardIf(events, allowed, options), events))[i].ReviewNew?
    ensures var left := Map(SeenBy(options), Filter(HeardIf(events, allowed, options), events));
            NoNegative(left, left[i].app, left[i].review.fingerprint)
  {
    var heard := Filter(HeardIf(events, allowed, options), events);
    var left := Map(SeenBy(options), heard);
    FilterMembers(HeardIf(events, allowed, options), events);
    assert heard[i] in heard;
    assert heard[i].ReviewNew? && Hears(events, allowed, options, heard[i]);
    var k :| 0 <= k < |events| && events[k] == heard[i];
    forall n | 0 <= n < |left|
      ensures !(left[n].ReviewNegative? && left[n].app == left[i].app
                && left[n].review.fingerprint == left[i].review.fingerprint)
    {
      assert heard[n] in heard;
      assert Hears(events, allowed, options, heard[n]);
    }
  }
}
