/** From a collected alert to its subscribers: nothing on the way loses an alert that is meant for them. */
module AlertReach {
  import opened Wrappers
  import opened Sequences
  import opened AlertPayloads
  import opened AlertBatch
  import opened AlertClassification
  import opened AlertAssembly
  import opened AlertBatchFilter
  import opened AlertDeliveryFlow
  import opened AlertAudience
  import SurvivingEvents

  // What selection keeps

  /** No other drop of the same app and day is as deep. */
  predicate DeepestDrop(events: seq<OutboxEvent>, event: OutboxEvent)
    requires event.payload.RatingDropped?
  {
    forall i :: 0 <= i < |events| && events[i].payload.RatingDropped? && events[i].payload.app == event.payload.app
                && events[i].payload.toDate == event.payload.toDate && events[i] != event ==>
      events[i].payload.dropTenths < event.payload.dropTenths
  }

  lemma {:induction false} SelectedKeeps(events: seq<OutboxEvent>, n: nat, i: nat)
    requires i < n <= |events| && Stays(events, i)
    ensures events[i] in Selected(events, n)
  {
    if i < n - 1 {
      SelectedKeeps(events, n - 1, i);
    }
  }

  lemma KeptBySelection(events: seq<OutboxEvent>, event: OutboxEvent)
    requires event in events && (event.payload.RatingDropped? ==> DeepestDrop(events, event))
    ensures event in Selected(events, |events|)
  {
    var i :| 0 <= i < |events| && events[i] == event;
    if event.payload.RatingDropped? {
      var day := DropDay(event.payload);
      DeepestOfDay(events, day, i);
      var place := DeepestPlace(events, day).value;
      assert events[place] == event;
      SelectedKeeps(events, |events|, place);
    } else {
      SelectedKeeps(events, |events|, i);
    }
  }

  /** Every event is selected but the rating drops that are not the deepest of their app and day. */
  lemma SelectedUnlessShallow(events: seq<OutboxEvent>, event: OutboxEvent)
    requires event in events && (event.payload.RatingDropped? ==> DeepestDrop(events, event))
    ensures event in SelectedEvents(events)
  {
    var sorted := SortBy(EventLe, events);
    SortedMember(EventLe, events, event);
    if event.payload.RatingDropped? {
      forall i | 0 <= i < |sorted| && sorted[i].payload.RatingDropped? && sorted[i].payload.app == event.payload.app
                 && sorted[i].payload.toDate == event.payload.toDate && sorted[i] != event
        ensures sorted[i].payload.dropTenths < event.payload.dropTenths
      {
        SortedMember(EventLe, events, sorted[i]);
        var j :| 0 <= j < |events| && events[j] == sorted[i];
      }
    }
    KeptBySelection(sorted, event);
    SortedMember(EventLe, Selected(sorted, |sorted|), event);
  }

  /** By creation time, then by the row's id. */
  predicate Older(left: OutboxEvent, right: OutboxEvent) {
    left.createdAt < right.createdAt || (left.createdAt == right.createdAt && left.id <= right.id)
  }

  /** The signals of a flush come oldest first, whatever order its events came in. */
  lemma SignalsOldestFirst(events: seq<OutboxEvent>, lookup: Lookup)
    requires Coherent(lookup)
    ensures var owned := FlushedOwned(events, lookup);
            forall i, j :: 0 <= i < j < |owned| ==> Older(owned[i].event, owned[j].event)
    ensures var others := FlushedCompetitors(events, lookup);
            forall i, j :: 0 <= i < j < |others| ==> Older(others[i].event, others[j].event)
  {
    SurvivingEvents.SelectionInFlushOrder(events);
    SurvivingEvents.OwnedInOrder(EventLe, SelectedEvents(events), lookup);
    SurvivingEvents.CompetitorsInOrder(EventLe, SelectedEvents(events), lookup);
    var (owned, others) := (FlushedOwned(events, lookup), FlushedCompetitors(events, lookup));
    forall i, j | 0 <= i < j < |owned|
      ensures Older(owned[i].event, owned[j].event)
    {
      assert SurvivingEvents.OnOwned(EventLe)(owned[i], owned[j]) == EventLe(owned[i].event, owned[j].event);
    }
    forall i, j | 0 <= i < j < |others|
      ensures Older(others[i].event, others[j].event)
    {
      assert SurvivingEvents.OnCompetitors(EventLe)(others[i], others[j]) == EventLe(others[i].event, others[j].event);
    }
  }

  // From the signal to the job

  /** Some job has this id and carries this payload. */
  predicate Carries(jobs: seq<Job>, id: JobId, payload: Payload) {
    exists k :: 0 <= k < |jobs| && jobs[k].id == id && payload in jobs[k].payload.events
  }

  lemma HeardSignalKept(signals: seq<OwnedSignal>, signal: OwnedSignal, allowed: set<Kind>, options: Options)
    requires signal in signals && Hears(Map(PayloadOf, signals), allowed, options, signal.event.payload)
    ensures Seen(options, signal.event.payload) in Map(PayloadOf, HeardSignals(signals, allowed, options))
  {
    var heard := SignalHeardIf(Map(PayloadOf, signals), allowed, options);
    var kept := Filter(heard, signals);
    FilterMember(heard, signals, signal);
    var i :| 0 <= i < |kept| && kept[i] == signal;
    assert Map(PayloadOf, HeardSignals(signals, allowed, options))[i] == Seen(options, signal.event.payload);
  }

  lemma SubscriptionCarries(events: seq<OutboxEvent>, now: int, claim: int, reading: Reading, subscription: Subscription,
                            signal: OwnedSignal)
    requires Coherent(reading.lookup) && signal in FlushedOwned(events, reading.lookup)
    requires Hears(Map(PayloadOf, FlushedOwned(events, reading.lookup)), subscription.events,
                   AsksOf(subscription, reading.instanceThreshold), signal.event.payload)
    ensures Carries(SubscriptionJobs(events, now, claim, reading, subscription),
                    JobId(claim, subscription.webhook, subscription.id, true),
                    Seen(AsksOf(subscription, reading.instanceThreshold), signal.event.payload))
  {
    var (owned, others) := (FlushedOwned(events, reading.lookup), FlushedCompetitors(events, reading.lookup));
    var options := AsksOf(subscription, reading.instanceThreshold);
    ClassificationConserves(SelectedEvents(events), reading.lookup);
    JobsAreHeard(owned, others, reading.lookup, now, reading.traffic, claim, subscription, reading.instanceThreshold);
    HeardSignalKept(owned, signal, subscription.events, options);
    var heard := HeardSignals(owned, subscription.events, options);
    var whole := OwnedBatch(owned, now, reading.traffic);
    FirstJobCarries(heard, whole, now, reading.traffic, claim, subscription, Seen(options, signal.event.payload),
                    SubscriptionJobs(events, now, claim, reading, subscription));
  }

  lemma FirstJobCarries(heard: seq<OwnedSignal>, whole: Batch, now: int, traffic: Option<Traffic>, claim: int,
                        subscription: Subscription, payload: Payload, jobs: seq<Job>)
    requires payload in Map(PayloadOf, heard)
    requires OwnedJobs(heard, whole, now, traffic, claim, subscription) <= jobs
    ensures Carries(jobs, JobId(claim, subscription.webhook, subscription.id, true), payload)
  {
    var first := OwnedJobs(heard, whole, now, traffic, claim, subscription);
    assert heard != [] && jobs[0] == first[0];
    assert jobs[0].payload.events == Map(PayloadOf, heard);
  }

  /**
   An alert of an app that is known and no competitor reaches every subscription that hears its kind:
   the claim's jobs have one for that subscription's owned apps that carries it, as it is seen there.
   Only a rating drop that is not the deepest of its app and day stays out.
   */
  lemma AlertReachesSubscriber(events: seq<OutboxEvent>, now: int, claim: int, reading: Reading, j: nat,
                               event: OutboxEvent)
    requires Coherent(reading.lookup) && j < |reading.subscriptions|
    requires event in events && (event.payload.RatingDropped? ==> DeepestDrop(events, event))
    requires NamesItsApp(event) && event.payload.app in reading.lookup.appById
    requires !reading.lookup.appById[event.payload.app].isCompetitor
    requires Hears(Map(PayloadOf, FlushedOwned(events, reading.lookup)), reading.subscriptions[j].events,
                   AsksOf(reading.subscriptions[j], reading.instanceThreshold), event.payload)
    ensures var subscription := reading.subscriptions[j];
            Carries(DeliveryJobs(events, now, claim, reading),
                    JobId(claim, subscription.webhook, subscription.id, true),
                    Seen(AsksOf(subscription, reading.instanceThreshold), event.payload))
  {
    var (lookup, subscription) := (reading.lookup, reading.subscriptions[j]);
    var signal := OwnedSignal(event, [lookup.appById[event.payload.app]]);
    SelectedUnlessShallow(events, event);
    OwnAppIsOwned(SelectedEvents(events), lookup, event);
    assert signal in FlushedOwned(events, lookup);
    SubscriptionCarries(events, now, claim, reading, subscription, signal);
    var parts := JobsPerSubscription(events, now, claim, reading);
    CarriedJoined(parts, j, JobId(claim, subscription.webhook, subscription.id, true),
                  Seen(AsksOf(subscription, reading.instanceThreshold), event.payload));
  }

  lemma CarriedJoined(parts: seq<seq<Job>>, j: nat, id: JobId, payload: Payload)
    requires j < |parts| && Carries(parts[j], id, payload)
    ensures Carries(Joined(parts), id, payload)
  {
    var k :| 0 <= k < |parts[j]| && parts[j][k].id == id && payload in parts[j][k].payload.events;
    assert parts[j][k] in parts[j];
    InJoined(parts, j, parts[j][k]);
    var n :| 0 <= n < |Joined(parts)| && Joined(parts)[n] == parts[j][k];
  }
}
