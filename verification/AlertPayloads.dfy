/**
 Alert payloads and the rules that route one of them: rank and rating thresholds, confirmed
 drops, one message per review, and the impact a rank move is listed by.
 Ids and texts stand for their place in the order `localeCompare` gives them; `doc` is
 whatever else a payload carries.
 */
module AlertPayloads {
  import opened Wrappers

  type Id = int

  datatype Keyword = Keyword(id: Id, text: int)

  datatype Review = Review(score: int, fingerprint: int)

  datatype Payload =
    | MetadataChanged(app: Id, doc: int)
    | RankDropped(app: Id, keyword: Keyword, from: int, to: Option<int>, threshold: int, confirmed: bool, doc: int)
    | RankImproved(app: Id, keyword: Keyword, before: Option<int>, position: int, threshold: int, undoesDrop: bool,
                   doc: int)
    | RankMilestone(app: Id, keyword: Keyword, before: Option<int>, to: Option<int>, leaves: bool, confirmed: bool,
                    undoesDrop: bool, doc: int)
    | RankFirst(app: Id, keyword: Keyword, position: int, doc: int)
    | RankOvertaken(app: Id, keyword: Keyword, from: int, to: Option<int>, doc: int)
    | ReviewNegative(app: Id, review: Review, doc: int)
    | ReviewNew(app: Id, review: Review, doc: int)
    | RatingDropped(app: Id, toDate: int, dropTenths: int, doc: int)
    | ReviewSpike(app: Id, doc: int)
    | AppDelisted(app: Id, doc: int)
    | AppUnlistedMarket(app: Id, doc: int)
    | DigestWeekly(doc: int)
    | SerpEntrant(keyword: Keyword, doc: int)
    | ActionOpened(app: Id, priority: int, impact: int, doc: int)
    | ChartEntered(app: Id, doc: int)
    | ChartLeft(app: Id, doc: int)
    | ChartMilestone(app: Id, doc: int)

  /** The `event` field: what a subscription allows or not. */
  datatype Kind =
    | MetadataChangedKind | RankDroppedKind | RankImprovedKind | RankMilestoneKind | RankFirstKind
    | RankOvertakenKind | ReviewNegativeKind | ReviewNewKind | RatingDroppedKind | ReviewSpikeKind
    | AppDelistedKind | AppUnlistedMarketKind | DigestWeeklyKind | SerpEntrantKind | ActionOpenedKind
    | ChartEnteredKind | ChartLeftKind | ChartMilestoneKind

  function KindOf(payload: Payload): Kind {
    match payload
    case MetadataChanged(_, _) => MetadataChangedKind
    case RankDropped(_, _, _, _, _, _, _) => RankDroppedKind
    case RankImproved(_, _, _, _, _, _, _) => RankImprovedKind
    case RankMilestone(_, _, _, _, _, _, _, _) => RankMilestoneKind
    case RankFirst(_, _, _, _) => RankFirstKind
    case RankOvertaken(_, _, _, _, _) => RankOvertakenKind
    case ReviewNegative(_, _, _) => ReviewNegativeKind
    case ReviewNew(_, _, _) => ReviewNewKind
    case RatingDropped(_, _, _, _) => RatingDroppedKind
    case ReviewSpike(_, _) => ReviewSpikeKind
    case AppDelisted(_, _) => AppDelistedKind
    case AppUnlistedMarket(_, _) => AppUnlistedMarketKind
    case DigestWeekly(_) => DigestWeeklyKind
    case SerpEntrant(_, _) => SerpEntrantKind
    case ActionOpened(_, _, _, _) => ActionOpenedKind
    case ChartEntered(_, _) => ChartEnteredKind
    case ChartLeft(_, _) => ChartLeftKind
    case ChartMilestone(_, _) => ChartMilestoneKind
  }

  /** The app a payload names, when it names one. */
  function AppOf(payload: Payload): Option<Id> {
    if payload.DigestWeekly? || payload.SerpEntrant? then None else Some(payload.app)
  }

  predicate IsAvailability(payload: Payload) {
    payload.AppDelisted? || payload.AppUnlistedMarket?
  }

  predicate IsChartMove(payload: Payload) {
    payload.ChartEntered? || payload.ChartLeft? || payload.ChartMilestone?
  }

  // Thresholds on rank moves

  predicate ReachesRankThreshold(payload: Payload, threshold: int) {
    match payload
    case RankDropped(_, _, from, to, _, _, _) => to.None? || to.value - from >= threshold
    case RankImproved(_, _, before, position, _, _, _) => before.None? || before.value - position >= threshold
    case _ => true
  }

  function WithThreshold(payload: Payload, threshold: int): Payload {
    if payload.RankDropped? || payload.RankImproved? then payload.(threshold := threshold) else payload
  }

  function SubscriptionThreshold(rankDropThreshold: Option<int>, instance: int): int {
    var wanted := rankDropThreshold.GetOr(instance);
    if wanted >= instance then wanted else instance
  }

  // Rating drops

  const RATING_DROP_DEFAULT_TENTHS := 1

  predicate ListsRatingDrop(ratingDropTenths: Option<int>, dropTenths: int) {
    dropTenths >= ratingDropTenths.GetOr(RATING_DROP_DEFAULT_TENTHS) && dropTenths >= RATING_DROP_DEFAULT_TENTHS
  }

  predicate KeepsRating(payload: Payload, ratingDropTenths: Option<int>) {
    payload.RatingDropped? ==> ListsRatingDrop(ratingDropTenths, payload.dropTenths)
  }

  // Confirmed drops

  datatype DropAudience = Everyone | Confirming | Ordinary

  function DropAudienceOf(payload: Payload): DropAudience {
    match payload
    case RankDropped(_, _, _, _, _, confirmed, _) => if confirmed then Confirming else Ordinary
    case RankMilestone(_, _, _, _, leaves, confirmed, undoesDrop, _) =>
      if confirmed then Confirming else if leaves || undoesDrop then Ordinary else Everyone
    case RankImproved(_, _, _, _, _, undoesDrop, _) => if undoesDrop then Ordinary else Everyone
    case _ => Everyone
  }

  predicate ReachesChannel(payload: Payload, confirmDrops: bool) {
    var audience := DropAudienceOf(payload);
    audience == Everyone || (audience == Confirming) == confirmDrops
  }

  // One message per review

  type ReviewKey = (Id, int)

  function ReviewKeyOf(payload: Payload): ReviewKey
    requires payload.ReviewNew? || payload.ReviewNegative?
  {
    (payload.app, payload.review.fingerprint)
  }

  predicate ListsReviewScore(reviewScores: seq<int>, score: int) {
    reviewScores == [] || score in reviewScores
  }

  predicate IsListedReview(payload: Payload, allowed: set<Kind>, reviewScores: seq<int>) {
    payload.ReviewNew? && ReviewNewKind in allowed && ListsReviewScore(reviewScores, payload.review.score)
  }

  /** The reviews a subscription hears of as new reviews. */
  function ListedReviews(events: seq<Payload>, allowed: set<Kind>, reviewScores: seq<int>): set<ReviewKey> {
    set p | p in events && IsListedReview(p, allowed, reviewScores) :: ReviewKeyOf(p)
  }

  /** The gate: the subscription's kinds, its review scores, and no second message about a listed review. */
  predicate PassesGate(payload: Payload, listed: set<ReviewKey>, allowed: set<Kind>, reviewScores: seq<int>) {
    && KindOf(payload) in allowed
    && (payload.ReviewNew? ==> ListsReviewScore(reviewScores, payload.review.score))
    && (payload.ReviewNegative? ==> ReviewKeyOf(payload) !in listed)
  }

  // Impact of rank moves

  const UNSCORED_TRAFFIC := 1.0

  /** The traffic of the keywords of a batch, and the weight of a position. */
  datatype Traffic = Traffic(scores: map<Id, Option<real>>, weight: Option<int> -> real)

  predicate IsRankMove(payload: Payload) {
    payload.RankDropped? || payload.RankImproved? || payload.RankMilestone? || payload.RankFirst? ||
    payload.RankOvertaken?
  }

  function MoveImpact(traffic: Traffic, keyword: Keyword, from: Option<int>, to: Option<int>): real {
    var score := if keyword.id in traffic.scores then traffic.scores[keyword.id].GetOr(UNSCORED_TRAFFIC)
                 else UNSCORED_TRAFFIC;
    var change := traffic.weight(to) - traffic.weight(from);
    score * (if change < 0.0 then -change else change)
  }

  /** The impact of a rank move; the lists this orders hold nothing else. */
  function ImpactOf(payload: Payload, traffic: Traffic): real {
    match payload
    case RankDropped(_, keyword, from, to, _, _, _) => MoveImpact(traffic, keyword, Some(from), to)
    case RankImproved(_, keyword, before, position, _, _, _) => MoveImpact(traffic, keyword, before, Some(position))
    case RankMilestone(_, keyword, before, to, _, _, _, _) => MoveImpact(traffic, keyword, before, to)
    case RankFirst(_, keyword, position, _) => MoveImpact(traffic, keyword, None, Some(position))
    case RankOvertaken(_, keyword, from, to, _) => MoveImpact(traffic, keyword, Some(from), to)
    case _ => 0.0
  }

  function MoveKeyword(payload: Payload): Keyword {
    if IsRankMove(payload) then payload.keyword else Keyword(0, 0)
  }

  /** `compareImpact(left, right) <= 0`: the larger impact first, then the keyword's text, then its id. */
  predicate ImpactLe(traffic: Traffic, left: Payload, right: Payload) {
    var (a, b) := (ImpactOf(left, traffic), ImpactOf(right, traffic));
    var (k, l) := (MoveKeyword(left), MoveKeyword(right));
    a > b || (a == b && (k.text < l.text || (k.text == l.text && k.id <= l.id)))
  }
}
