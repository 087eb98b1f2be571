/** The queue jobs that bring one claim's batches to one subscription. */
module AlertDeliveryFlow {
  import opened Wrappers
  import opened Sequences
  import opened AlertPayloads
  import opened AlertBatch
  import opened AlertAssembly
  import opened AlertBatchFilter
  import opened CompetitorBatchFilter

  /** A delivery job's identity: `flush~flushId~kind~subscription~scope`. */
  datatype JobId = JobId(flushId: int, webhook: bool, subscription: int, ownedScope: bool)

  datatype Subscription = Subscription(
    id: int,
    webhook: bool,
    events: set<Kind>,
    reviewScores: seq<int>,
    confirmDrops: bool,
    ratingDropTenths: Option<int>,
    rankDropThreshold: Option<int>)

  function OptionsOf(subscription: Subscription, instanceThreshold: int): Options {
    Options(subscription.reviewScores, subscription.confirmDrops, subscription.ratingDropTenths,
            Some(SubscriptionThreshold(subscription.rankDropThreshold, instanceThreshold)))
  }

  datatype Job = Job(id: JobId, payload: Batch)

  /** A job that waits for its children. */
  datatype Flow = Flow(job: Job, children: seq<Job>)

  function Node(flushId: int, subscription: Subscription, payload: Batch): Job {
    Job(JobId(flushId, subscription.webhook, subscription.id, payload.scope == OwnedApps), payload)
  }

  /** A job for each batch that something is left of; the owned apps' job goes before the competitors'. */
  function FlowsOf(own: Option<Batch>, others: Option<Batch>, flushId: int, subscription: Subscription): seq<Flow> {
    if own.None? && others.None? then []
    else if own.Some? && others.Some? then
      [Flow(Node(flushId, subscription, others.value), [Node(flushId, subscription, own.value)])]
    else if own.Some? then [Flow(Node(flushId, subscription, own.value), [])]
    else [Flow(Node(flushId, subscription, others.value), [])]
  }

  /** `createDeliveryFlows`. */
  function CreateDeliveryFlows(owned: Batch, competitors: Batch, flushId: int, subscription: Subscription,
                               instanceThreshold: int): seq<Flow>
  {
    var options := OptionsOf(subscription, instanceThreshold);
    FlowsOf(FilterBatch(owned, subscription.events, options), FilterBatch(competitors, subscription.events, options),
            flushId, subscription)
  }

  /** The jobs of a list of flows, each behind those it waits for. */
  function JobsOf(flows: seq<Flow>): seq<Job> {
    if flows == [] then [] else JobsOf(Init(flows)) + Last(flows).children + [Last(flows).job]
  }

  function NodeOf(flushId: int, subscription: Subscription, payload: Option<Batch>): seq<Job> {
    if payload.Some? then [Node(flushId, subscription, payload.value)] else []
  }

  lemma JobsOfFlows(own: Option<Batch>, others: Option<Batch>, flushId: int, subscription: Subscription)
    ensures JobsOf(FlowsOf(own, others, flushId, subscription))
         == NodeOf(flushId, subscription, own) + NodeOf(flushId, subscription, others)
  {
    var flows := FlowsOf(own, others, flushId, subscription);
    if flows != [] {
      assert Init(flows) == [] && Last(flows) == flows[0];
    }
  }

  /** What is assembled from the signals that are left; nothing when none is. */
  function OwnedDelivery(left: seq<OwnedSignal>, whole: Batch, now: int, traffic: Option<Traffic>): Option<Batch> {
    if left == [] then None else Some(OwnedBatch(left, now, traffic).(from := whole.from))
  }

  function CompetitorDelivery(left: seq<CompetitorSignal>, whole: Batch, now: int): Option<Batch> {
    if left == [] then None else Some(CompetitorBatch(left, now).(from := whole.from))
  }

  function OwnedLeft(signals: seq<OwnedSignal>, now: int, traffic: Option<Traffic>, subscription: Subscription,
                     instanceThreshold: int): seq<OwnedSignal>
  {
    OwnedSurvivors(signals, ViewOf(OwnedApps, OwnedBatch(signals, now, traffic).events, subscription.events,
                                   OptionsOf(subscription, instanceThreshold)))
  }

  function CompetitorsLeft(signals: seq<CompetitorSignal>, now: int, subscription: Subscription, instanceThreshold: int):
    seq<CompetitorSignal>
  {
    CompetitorSurvivors(signals, ViewOf(CompetitorApps, CompetitorBatch(signals, now).events, subscription.events,
                                        OptionsOf(subscription, instanceThreshold)))
  }

  /**
   What a subscription is sent of a claim: one job for the owned apps exactly when one of their
   signals survives, one for the competitors exactly when one of theirs does, the owned apps' first;
   each carries the batch assembled from what survives.
   */
  lemma DeliversSurvivors(owned: seq<OwnedSignal>, competitors: seq<CompetitorSignal>, lookup: Lookup, now: int,
                          traffic: Option<Traffic>, flushId: int, subscription: Subscription, instanceThreshold: int)
    requires forall s :: s in owned ==> WellFormedOwned(s, lookup)
    requires forall s :: s in competitors ==> WellFormedCompetitor(s, lookup)
    ensures var (own, others) := (OwnedBatch(owned, now, traffic), CompetitorBatch(competitors, now));
            var ownLeft := OwnedLeft(owned, now, traffic, subscription, instanceThreshold);
            var othersLeft := CompetitorsLeft(competitors, now, subscription, instanceThreshold);
            JobsOf(CreateDeliveryFlows(own, others, flushId, subscription, instanceThreshold))
            == NodeOf(flushId, subscription, OwnedDelivery(ownLeft, own, now, traffic))
               + NodeOf(flushId, subscription, CompetitorDelivery(othersLeft, others, now))
  {
    var options := OptionsOf(subscription, instanceThreshold);
    var (own, others) := (OwnedBatch(owned, now, traffic), CompetitorBatch(competitors, now));
    OwnedFilterCommutes(owned, lookup, now, traffic, subscription.events, options);
    CompetitorFilterCommutes(competitors, lookup, now, subscription.events, options);
    JobsOfFlows(FilterBatch(own, subscription.events, options), FilterBatch(others, subscription.events, options),
                flushId, subscription);
  }

  // All the jobs of a claim

  /** What a worker reads to deliver a claim. */
  datatype Reading = Reading(
    subscriptions: seq<Subscription>,
    instanceThreshold: int,
    lookup: Lookup,
    traffic: Option<Traffic>)

  function SubscriptionJobs(events: seq<OutboxEvent>, now: int, claim: int, reading: Reading, subscription: Subscription):
    seq<Job>
  {
    JobsOf(CreateDeliveryFlows(OwnedBatch(FlushedOwned(events, reading.lookup), now, reading.traffic),
                               CompetitorBatch(FlushedCompetitors(events, reading.lookup), now),
                               claim, subscription, reading.instanceThreshold))
  }

  function JobsPerSubscription(events: seq<OutboxEvent>, now: int, claim: int, reading: Reading): (parts: seq<seq<Job>>)
    ensures |parts| == |reading.subscriptions|
    ensures forall j :: 0 <= j < |parts| ==>
              parts[j] == SubscriptionJobs(events, now, claim, reading, reading.subscriptions[j])
  {
    seq(|reading.subscriptions|, j requires 0 <= j < |reading.subscriptions| =>
        SubscriptionJobs(events, now, claim, reading, reading.subscriptions[j]))
  }

  /** `enqueue`: the jobs of all subscriptions. */
  function DeliveryJobs(events: seq<OutboxEvent>, now: int, claim: int, reading: Reading): seq<Job> {
    Joined(JobsPerSubscription(events, now, claim, reading))
  }

  function OwnedJobId(claim: int, subscription: Subscription): JobId {
    JobId(claim, subscription.webhook, subscription.id, true)
  }

  function CompetitorJobId(claim: int, subscription: Subscription): JobId {
    JobId(claim, subscription.webhook, subscription.id, false)
  }

  predicate HasJob(jobs: seq<Job>, id: JobId) {
    exists k :: 0 <= k < |jobs| && jobs[k].id == id
  }

  predicate OwnedSurvive(events: seq<OutboxEvent>, now: int, reading: Reading, subscription: Subscription) {
    OwnedLeft(FlushedOwned(events, reading.lookup), now, reading.traffic, subscription, reading.instanceThreshold) != []
  }

  predicate CompetitorsSurvive(events: seq<OutboxEvent>, now: int, reading: Reading, subscription: Subscription) {
    CompetitorsLeft(FlushedCompetitors(events, reading.lookup), now, subscription, reading.instanceThreshold) != []
  }

  lemma OwnedNode(left: seq<OwnedSignal>, whole: Batch, now: int, traffic: Option<Traffic>, claim: int,
                  subscription: Subscription)
    requires left != []
    ensures var nodes := NodeOf(claim, subscription, OwnedDelivery(left, whole, now, traffic));
            |nodes| == 1 && nodes[0].id == OwnedJobId(claim, subscription)
  {
  }

  lemma CompetitorNode(left: seq<CompetitorSignal>, whole: Batch, now: int, claim: int, subscription: Subscription)
    requires left != []
    ensures var nodes := NodeOf(claim, subscription, CompetitorDelivery(left, whole, now));
            |nodes| == 1 && nodes[0].id == CompetitorJobId(claim, subscription)
  {
  }

  /** The jobs of a subscription have one for each scope of which something survives. */
  lemma SurvivorsHaveJobs(events: seq<OutboxEvent>, now: int, claim: int, reading: Reading, subscription: Subscription)
    requires Coherent(reading.lookup)
    ensures var jobs := SubscriptionJobs(events, now, claim, reading, subscription);
            && (OwnedSurvive(events, now, reading, subscription) ==> HasJob(jobs, OwnedJobId(claim, subscription)))
            && (CompetitorsSurvive(events, now, reading, subscription) ==>
                  HasJob(jobs, CompetitorJobId(claim, subscription)))
  {
    var owned, others := FlushedOwned(events, reading.lookup), FlushedCompetitors(events, reading.lookup);
    var (own, rest) := (OwnedBatch(owned, now, reading.traffic), CompetitorBatch(others, now));
    var ownLeft := OwnedLeft(owned, now, reading.traffic, subscription, reading.instanceThreshold);
    var othersLeft := CompetitorsLeft(others, now, subscription, reading.instanceThreshold);
    ClassificationConserves(SelectedEvents(events), reading.lookup);
    DeliversSurvivors(owned, others, reading.lookup, now, reading.traffic, claim, subscription, reading.instanceThreshold);
    var first := NodeOf(claim, subscription, OwnedDelivery(ownLeft, own, now, reading.traffic));
    var second := NodeOf(claim, subscription, CompetitorDelivery(othersLeft, rest, now));
    var all: seq<Job> := first + second;
    if ownLeft != [] {
      OwnedNode(ownLeft, own, now, reading.traffic, claim, subscription);
      assert all[0] == first[0];
    }
    if othersLeft != [] {
      CompetitorNode(othersLeft, rest, now, claim, subscription);
      assert all[|first|] == second[0];
    }
  }

  /** The jobs of a claim have one for every subscription and scope of which something survives. */
  lemma DeliveryCoversSurvivors(events: seq<OutboxEvent>, now: int, claim: int, reading: Reading, j: nat)
    requires Coherent(reading.lookup) && j < |reading.subscriptions|
    ensures var (jobs, subscription) := (DeliveryJobs(events, now, claim, reading), reading.subscriptions[j]);
            && (OwnedSurvive(events, now, reading, subscription) ==> HasJob(jobs, OwnedJobId(claim, subscription)))
            && (CompetitorsSurvive(events, now, reading, subscription) ==>
                  HasJob(jobs, CompetitorJobId(claim, subscription)))
  {
    var subscription := reading.subscriptions[j];
    SurvivorsHaveJobs(events, now, claim, reading, subscription);
    var parts := JobsPerSubscription(events, now, claim, reading);
    JobsJoined(parts, j, OwnedJobId(claim, subscription));
    JobsJoined(parts, j, CompetitorJobId(claim, subscription));
  }

  lemma JobsJoined(parts: seq<seq<Job>>, j: nat, id: JobId)
    requires j < |parts|
    ensures HasJob(parts[j], id) ==> HasJob(Joined(parts), id)
  {
    if HasJob(parts[j], id) {
      var k :| 0 <= k < |parts[j]| && parts[j][k].id == id;
      assert parts[j][k] in parts[j];
      InJoined(parts, j, parts[j][k]);
    }
  }
}
