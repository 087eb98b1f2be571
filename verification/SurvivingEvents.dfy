/** From events to a subscription's batch and back: what survives a filter, assembled anew, is the filtered batch. */
module SurvivingEvents {
  import opened Wrappers
  import opened Sequences
  import opened AlertPayloads
  import opened AlertBatch
  import opened AlertAssembly
  import opened AlertBatchFilter
  import opened CompetitorBatchFilter

  type EventRelation = (OutboxEvent, OutboxEvent) -> bool

  function OwnedEvent(): OwnedSignal -> OutboxEvent {
    (s: OwnedSignal) => s.event
  }

  function CompetitorEvent(): CompetitorSignal -> OutboxEvent {
    (s: CompetitorSignal) => s.event
  }

  function OnOwned(rel: EventRelation): (OwnedSignal, OwnedSignal) -> bool {
    (a: OwnedSignal, b: OwnedSignal) => rel(a.event, b.event)
  }

  function OnCompetitors(rel: EventRelation): (CompetitorSignal, CompetitorSignal) -> bool {
    (a: CompetitorSignal, b: CompetitorSignal) => rel(a.event, b.event)
  }

  function DaysApart(): EventRelation {
    (a: OutboxEvent, b: OutboxEvent) => SeparateDays(a, b)
  }

  // Signals and the events they come from

  /** A signal is the verdict of its own event. */
  lemma {:induction false} OwnedIsVerdict(events: seq<OutboxEvent>, lookup: Lookup, s: OwnedSignal)
    requires Coherent(lookup) && s in OwnedOf(events, lookup)
    ensures s.event in events && Classify(s.event, lookup).owned == Some(s)
  {
    VerdictConserves(Last(events), lookup);
    if s in OwnedOf(Init(events), lookup) {
      OwnedIsVerdict(Init(events), lookup, s);
      assert events == Init(events) + [Last(events)];
    } else {
      assert Last(events) in events;
    }
  }

  lemma {:induction false} CompetitorIsVerdict(events: seq<OutboxEvent>, lookup: Lookup, s: CompetitorSignal)
    requires Coherent(lookup) && s in CompetitorsOf(events, lookup)
    ensures s.event in events && Classify(s.event, lookup).competitor == Some(s)
  {
    VerdictConserves(Last(events), lookup);
    if s in CompetitorsOf(Init(events), lookup) {
      CompetitorIsVerdict(Init(events), lookup, s);
      assert events == Init(events) + [Last(events)];
    } else {
      assert Last(events) in events;
    }
  }

  predicate OwnedVerdicts(signals: seq<OwnedSignal>, lookup: Lookup) {
    forall i :: 0 <= i < |signals| ==> Classify(signals[i].event, lookup).owned == Some(signals[i])
  }

  predicate CompetitorVerdicts(signals: seq<CompetitorSignal>, lookup: Lookup) {
    forall i :: 0 <= i < |signals| ==> Classify(signals[i].event, lookup).competitor == Some(signals[i])
  }

  /** Classifying the events of signals that are their verdicts gives those signals. */
  lemma {:induction false} OwnedAgain(signals: seq<OwnedSignal>, lookup: Lookup)
    requires OwnedVerdicts(signals, lookup)
    ensures OwnedOf(Map(OwnedEvent(), signals), lookup) == signals
  {
    if signals == [] {
      assert Map(OwnedEvent(), signals) == [];
    } else {
      InitOfMap(OwnedEvent(), signals);
      assert forall i :: 0 <= i < |signals| - 1 ==> Init(signals)[i] == signals[i];
      OwnedAgain(Init(signals), lookup);
      assert signals == Init(signals) + [Last(signals)];
    }
  }

  lemma {:induction false} CompetitorsAgain(signals: seq<CompetitorSignal>, lookup: Lookup)
    requires CompetitorVerdicts(signals, lookup)
    ensures CompetitorsOf(Map(CompetitorEvent(), signals), lookup) == signals
  {
    if signals == [] {
      assert Map(CompetitorEvent(), signals) == [];
    } else {
      InitOfMap(CompetitorEvent(), signals);
      assert forall i :: 0 <= i < |signals| - 1 ==> Init(signals)[i] == signals[i];
      CompetitorsAgain(Init(signals), lookup);
      assert signals == Init(signals) + [Last(signals)];
    }
  }

  /** What holds of the events in their order holds of the signals in theirs. */
  lemma {:induction false} OwnedInOrder(rel: EventRelation, events: seq<OutboxEvent>, lookup: Lookup)
    requires Coherent(lookup) && Sorted(rel, events)
    ensures Sorted(OnOwned(rel), OwnedOf(events, lookup))
  {
    if events != [] {
      OwnedInOrder(rel, Init(events), lookup);
      VerdictConserves(Last(events), lookup);
      var before := OwnedOf(Init(events), lookup);
      forall i | 0 <= i < |before|
        ensures rel(before[i].event, Last(events))
      {
        OwnedIsVerdict(Init(events), lookup, before[i]);
        var j :| 0 <= j < |Init(events)| && Init(events)[j] == before[i].event;
        assert rel(events[j], events[|events| - 1]);
      }
    }
  }

  lemma {:induction false} CompetitorsInOrder(rel: EventRelation, events: seq<OutboxEvent>, lookup: Lookup)
    requires Coherent(lookup) && Sorted(rel, events)
    ensures Sorted(OnCompetitors(rel), CompetitorsOf(events, lookup))
  {
    if events != [] {
      CompetitorsInOrder(rel, Init(events), lookup);
      VerdictConserves(Last(events), lookup);
      var before := CompetitorsOf(Init(events), lookup);
      forall i | 0 <= i < |before|
        ensures rel(before[i].event, Last(events))
      {
        CompetitorIsVerdict(Init(events), lookup, before[i]);
        var j :| 0 <= j < |Init(events)| && Init(events)[j] == before[i].event;
        assert rel(events[j], events[|events| - 1]);
      }
    }
  }

  // Selected events

  /** Sorted by time and id, with one rating drop of an app and day. */
  ghost predicate InFlushOrder(events: seq<OutboxEvent>) {
    Sorted(EventLe, events) && Sorted(DaysApart(), events)
  }

  lemma SelectionInFlushOrder(events: seq<OutboxEvent>)
    ensures InFlushOrder(SelectedEvents(events))
    ensures InFlushOrder(events) ==> SelectedEvents(events) == events
  {
    OrdersAreTotal();
    SortSorted(EventLe, events);
    var sorted := SortBy(EventLe, events);
    SelectionSorted(sorted, |sorted|);
    SelectionIsOneADay(sorted, |sorted|);
    var selected := Selected(sorted, |sorted|);
    SortOfSorted(EventLe, selected);
    if InFlushOrder(events) {
      SortOfSorted(EventLe, events);
      assert OneDropADay(events) by {
        forall i, j | 0 <= i < j < |events|
          ensures SeparateDays(events[i], events[j])
        {
          assert DaysApart()(events[i], events[j]);
        }
      }
      OneADayIsSelected(events, |events|);
      assert events[..|events|] == events;
    }
  }

  lemma {:induction false} SelectionSorted(events: seq<OutboxEvent>, n: nat)
    requires n <= |events| && Sorted(EventLe, events)
    ensures Sorted(EventLe, Selected(events, n))
  {
    if n > 0 {
      SelectionSorted(events, n - 1);
      var before := Selected(events, n - 1);
      forall k | 0 <= k < |before|
        ensures EventLe(before[k], events[n - 1])
      {
        var i := SelectedFrom(events, n - 1, k);
      }
    }
  }

  // Survivors

  /** A rank move that is given a subscription's threshold is classified as before. */
  lemma RewrittenVerdict(event: OutboxEvent, lookup: Lookup, options: Options)
    requires Classify(event, lookup).owned.Some?
    ensures var next := event.(payload := Rewritten(options)(event.payload));
            Classify(next, lookup).owned == Some(Classify(event, lookup).owned.value.(event := next))
  {
  }

  /** Rewriting a payload changes neither its event's place nor its rating day. */
  lemma RewrittenInPlace(a: OutboxEvent, b: OutboxEvent, options: Options)
    ensures var (c, d) := (a.(payload := Rewritten(options)(a.payload)), b.(payload := Rewritten(options)(b.payload)));
            EventLe(c, d) == EventLe(a, b) && SeparateDays(c, d) == SeparateDays(a, b)
  {
  }

  /** The events of the signals a subscription is left with, as it sees them. */
  function OwnedEventsLeft(signals: seq<OwnedSignal>, view: View): seq<OutboxEvent> {
    Map(OwnedEvent(), OwnedSurvivors(signals, view))
  }

  function CompetitorEventsLeft(signals: seq<CompetitorSignal>, view: View): seq<OutboxEvent> {
    Map(CompetitorEvent(), CompetitorSurvivors(signals, view))
  }

  lemma OwnedLeftInOrder(signals: seq<OwnedSignal>, view: View)
    requires Sorted(OnOwned(EventLe), signals) && Sorted(OnOwned(DaysApart()), signals)
    ensures InFlushOrder(OwnedEventsLeft(signals, view))
  {
    var kept := Filter(OwnedSurvives(view), signals);
    FilterSorted(OnOwned(EventLe), OwnedSurvives(view), signals);
    FilterSorted(OnOwned(DaysApart()), OwnedSurvives(view), signals);
    var left := OwnedEventsLeft(signals, view);
    forall i, j | 0 <= i < j < |left|
      ensures EventLe(left[i], left[j]) && DaysApart()(left[i], left[j])
    {
      assert OnOwned(EventLe)(kept[i], kept[j]) && OnOwned(DaysApart())(kept[i], kept[j]);
      RewrittenInPlace(kept[i].event, kept[j].event, view.options);
    }
  }

  lemma CompetitorsLeftInOrder(signals: seq<CompetitorSignal>, view: View)
    requires Sorted(OnCompetitors(EventLe), signals) && Sorted(OnCompetitors(DaysApart()), signals)
    ensures InFlushOrder(CompetitorEventsLeft(signals, view))
  {
    FilterSorted(OnCompetitors(EventLe), CompetitorSurvives(view), signals);
    FilterSorted(OnCompetitors(DaysApart()), CompetitorSurvives(view), signals);
    var kept, left := CompetitorSurvivors(signals, view), CompetitorEventsLeft(signals, view);
    forall i, j | 0 <= i < j < |left|
      ensures EventLe(left[i], left[j]) && DaysApart()(left[i], left[j])
    {
      assert OnCompetitors(EventLe)(kept[i], kept[j]) && OnCompetitors(DaysApart())(kept[i], kept[j]);
    }
  }

  lemma OwnedLeftVerdicts(events: seq<OutboxEvent>, lookup: Lookup, view: View)
    requires Coherent(lookup)
    ensures OwnedVerdicts(OwnedSurvivors(OwnedOf(events, lookup), view), lookup)
  {
    var signals := OwnedOf(events, lookup);
    var kept := Filter(OwnedSurvives(view), signals);
    var left := OwnedSurvivors(signals, view);
    forall i | 0 <= i < |left|
      ensures Classify(left[i].event, lookup).owned == Some(left[i])
    {
      FilterMember(OwnedSurvives(view), signals, kept[i]);
      OwnedIsVerdict(events, lookup, kept[i]);
      RewrittenVerdict(kept[i].event, lookup, view.options);
    }
  }

  lemma CompetitorLeftVerdicts(events: seq<OutboxEvent>, lookup: Lookup, view: View)
    requires Coherent(lookup)
    ensures CompetitorVerdicts(CompetitorSurvivors(CompetitorsOf(events, lookup), view), lookup)
  {
    var signals := CompetitorsOf(events, lookup);
    var left := CompetitorSurvivors(signals, view);
    forall i | 0 <= i < |left|
      ensures Classify(left[i].event, lookup).competitor == Some(left[i])
    {
      FilterMember(CompetitorSurvives(view), signals, left[i]);
      CompetitorIsVerdict(events, lookup, left[i]);
    }
  }

  /** A flush of the surviving events has the surviving signals. */
  lemma OwnedReflushed(events: seq<OutboxEvent>, lookup: Lookup, view: View)
    requires Coherent(lookup)
    ensures var signals := FlushedOwned(events, lookup);
            FlushedOwned(OwnedEventsLeft(signals, view), lookup) == OwnedSurvivors(signals, view)
  {
    var selected := SelectedEvents(events);
    var signals := FlushedOwned(events, lookup);
    SelectionInFlushOrder(events);
    OwnedInOrder(EventLe, selected, lookup);
    OwnedInOrder(DaysApart(), selected, lookup);
    OwnedLeftInOrder(signals, view);
    SelectionInFlushOrder(OwnedEventsLeft(signals, view));
    OwnedLeftVerdicts(selected, lookup, view);
    OwnedAgain(OwnedSurvivors(signals, view), lookup);
  }

  lemma CompetitorsReflushed(events: seq<OutboxEvent>, lookup: Lookup, view: View)
    requires Coherent(lookup)
    ensures var signals := FlushedCompetitors(events, lookup);
            FlushedCompetitors(CompetitorEventsLeft(signals, view), lookup) == CompetitorSurvivors(signals, view)
  {
    var selected := SelectedEvents(events);
    var signals := FlushedCompetitors(events, lookup);
    SelectionInFlushOrder(events);
    CompetitorsInOrder(EventLe, selected, lookup);
    CompetitorsInOrder(DaysApart(), selected, lookup);
    CompetitorsLeftInOrder(signals, view);
    SelectionInFlushOrder(CompetitorEventsLeft(signals, view));
    CompetitorLeftVerdicts(selected, lookup, view);
    CompetitorsAgain(CompetitorSurvivors(signals, view), lookup);
  }

  /**
   From events to batch: filtering the owned batch of a flush is the owned batch of a flush of the
   surviving events alone, with selection, classification, assembly and impact order done again.
   */
  lemma OwnedFilterIsReflush(events: seq<OutboxEvent>, lookup: Lookup, now: int, traffic: Option<Traffic>,
                             allowed: set<Kind>, options: Options)
    requires Coherent(lookup)
    ensures var batch := OwnedBatch(FlushedOwned(events, lookup), now, traffic);
            var left := OwnedEventsLeft(FlushedOwned(events, lookup),
                                        ViewOf(OwnedApps, batch.events, allowed, options));
            FilterBatch(batch, allowed, options)
            == if left == [] then None
               else Some(OwnedBatch(FlushedOwned(left, lookup), now, traffic).(from := batch.from))
  {
    var signals := FlushedOwned(events, lookup);
    var view := ViewOf(OwnedApps, OwnedBatch(signals, now, traffic).events, allowed, options);
    ClassificationConserves(SelectedEvents(events), lookup);
    OwnedFilterCommutes(signals, lookup, now, traffic, allowed, options);
    OwnedReflushed(events, lookup, view);
    assert |OwnedEventsLeft(signals, view)| == |OwnedSurvivors(signals, view)|;
  }

  /** The same for the competitor batch. */
  lemma CompetitorFilterIsReflush(events: seq<OutboxEvent>, lookup: Lookup, now: int, allowed: set<Kind>, options: Options)
    requires Coherent(lookup)
    ensures var batch := CompetitorBatch(FlushedCompetitors(events, lookup), now);
            var left := CompetitorEventsLeft(FlushedCompetitors(events, lookup),
                                             ViewOf(CompetitorApps, batch.events, allowed, options));
            FilterBatch(batch, allowed, options)
            == if left == [] then None
               else Some(CompetitorBatch(FlushedCompetitors(left, lookup), now).(from := batch.from))
  {
    var signals := FlushedCompetitors(events, lookup);
    var view := ViewOf(CompetitorApps, CompetitorBatch(signals, now).events, allowed, options);
    ClassificationConserves(SelectedEvents(events), lookup);
    CompetitorFilterCommutes(signals, lookup, now, allowed, options);
    CompetitorsReflushed(events, lookup, view);
    assert |CompetitorEventsLeft(signals, view)| == |CompetitorSurvivors(signals, view)|;
  }
}
