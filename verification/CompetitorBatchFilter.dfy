/** The same agreement of filtering and assembling for the competitor batch, whose sections nest. */
module CompetitorBatchFilter {
  import opened Wrappers
  import opened Sequences
  import opened AlertPayloads
  import opened AlertBatch
  import opened AlertAssembly
  import opened AlertBatchFilter

  function CompetitorSurvives(view: View): CompetitorSignal -> bool {
    (s: CompetitorSignal) => Survives(view, s.event.payload)
  }

  /** The competitor signals a subscription is left with; none of them carries a threshold. */
  function CompetitorSurvivors(signals: seq<CompetitorSignal>, view: View): seq<CompetitorSignal> {
    Filter(CompetitorSurvives(view), signals)
  }

  ghost predicate News(signals: seq<CompetitorSignal>) {
    forall s :: s in signals ==> s.event.payload.MetadataChanged? || IsAvailability(s.event.payload)
  }

  lemma NewsSurvivesByKind(view: View, payload: Payload)
    requires payload.MetadataChanged? || IsAvailability(payload)
    ensures Survives(view, payload) <==> KindOf(payload) in view.allowed
    ensures Rewritten(view.options)(payload) == payload
  {
  }

  lemma SurvivingPayloads(signals: seq<CompetitorSignal>, view: View)
    requires News(signals)
    ensures Surviving(view, Map(CompetitorPayload, signals)) == Map(CompetitorPayload, CompetitorSurvivors(signals, view))
    ensures News(CompetitorSurvivors(signals, view))
  {
    var left := CompetitorSurvivors(signals, view);
    FilterMembers(CompetitorSurvives(view), signals);
    FilterOfMap(CompetitorPayload, PayloadSurvives(view), CompetitorSurvives(view), signals);
    forall s | s in left
      ensures Rewritten(view.options)(CompetitorPayload(s)) == CompetitorPayload(s)
    {
      NewsSurvivesByKind(view, s.event.payload);
    }
    MapOfMap(CompetitorPayload, Rewritten(view.options), CompetitorPayload, left);
  }

  /** One list of one competitor: the surviving news. */
  lemma NewsSurvives(signals: seq<CompetitorSignal>, view: View, primary: App, competitor: App, available: bool)
    requires News(signals)
    ensures var all, left := NewsOf(signals, primary, competitor, available),
                             NewsOf(CompetitorSurvivors(signals, view), primary, competitor, available);
            if available then Filter(AllowedGate(view), all) == left
            else left == if MetadataChangedKind in view.allowed then all else []
  {
    var tells := Tells(primary, competitor, available);
    var told := Filter(tells, signals);
    var both := (s: CompetitorSignal) => tells(s) && CompetitorSurvives(view)(s);
    FilterTwice(tells, CompetitorSurvives(view), both, signals);
    FilterTwice(CompetitorSurvives(view), tells, both, signals);
    FilterMembers(tells, signals);
    forall s | s in told
      ensures CompetitorSurvives(view)(s) <==> KindOf(s.event.payload) in view.allowed
    {
      NewsSurvivesByKind(view, s.event.payload);
    }
    if available {
      FilterOfMap(CompetitorPayload, AllowedGate(view), CompetitorSurvives(view), told);
    } else if MetadataChangedKind in view.allowed {
      FilterAll(CompetitorSurvives(view), told);
    } else {
      FilterNone(CompetitorSurvives(view), told);
    }
  }

  function ViewedCompetitor(signals: seq<CompetitorSignal>, view: View, primary: App): App -> CompetitorSection {
    (app: App) => AllowedCompetitor(view, CompetitorFor(signals, primary, app))
  }

  /** A competitor's part as the subscription sees it is its part among the survivors. */
  lemma CompetitorViewed(signals: seq<CompetitorSignal>, view: View, primary: App, app: App)
    requires News(signals)
    ensures ViewedCompetitor(signals, view, primary)(app) == CompetitorOf(CompetitorSurvivors(signals, view), primary)(app)
  {
    NewsSurvives(signals, view, primary, app, true);
    NewsSurvives(signals, view, primary, app, false);
  }

  /** A competitor is shown exactly when a signal of that primary is about it. */
  lemma {:induction false} NewsOfMet(signals: seq<CompetitorSignal>, primary: App, app: App)
    requires News(signals)
    ensures CompetitorHasNews(CompetitorOf(signals, primary)(app)) <==> app in CompetitorsUnder(signals, primary)
  {
    if signals != [] {
      var rest, signal := Init(signals), Last(signals);
      assert signals == rest + [signal] && signal in signals;
      NewsOfMet(rest, primary, app);
      NewsGrow(rest, signal, primary, app);
      CompetitorsUnderAppend(rest, signal, primary);
    }
  }

  /** The competitors and primaries of the survivors are among those of all signals. */
  lemma SurvivorsAreMet(signals: seq<CompetitorSignal>, view: View, primary: App, app: App)
    ensures app in CompetitorsUnder(CompetitorSurvivors(signals, view), primary) ==>
              app in CompetitorsUnder(signals, primary)
    ensures app in PrimariesOf(CompetitorSurvivors(signals, view)) ==> app in PrimariesOf(signals)
  {
    FilterMembers(CompetitorSurvives(view), signals);
    SignalOfCompetitor(signals, primary, app);
    SignalOfCompetitor(CompetitorSurvivors(signals, view), primary, app);
    SignalOfCompetitor(signals, app, app);
    SignalOfCompetitor(CompetitorSurvivors(signals, view), app, app);
  }

  /** A primary is met exactly when it has competitors. */
  lemma {:induction false} MetPrimaries(signals: seq<CompetitorSignal>, primary: App)
    ensures CompetitorsUnder(signals, primary) != [] <==> primary in PrimariesOf(signals)
  {
    if signals != [] {
      var rest, signal := Init(signals), Last(signals);
      assert signals == rest + [signal];
      MetPrimaries(rest, primary);
      CompetitorsUnderAppend(rest, signal, primary);
      PrimariesAppend(rest, signal);
    }
  }

  lemma {:induction false} AppsKnown(signals: seq<CompetitorSignal>, primary: App, lookup: Lookup)
    requires forall s :: s in signals ==> WellFormedCompetitor(s, lookup)
    ensures IdsName(CompetitorsUnder(signals, primary), lookup.appById) && IdsName(PrimariesOf(signals), lookup.appById)
  {
    if signals != [] {
      var rest, signal := Init(signals), Last(signals);
      assert signals == rest + [signal] && signal in signals;
      assert WellFormedCompetitor(signal, lookup);
      AppsKnown(rest, primary, lookup);
      CompetitorsUnderAppend(rest, signal, primary);
      PrimariesAppend(rest, signal);
    }
  }

  lemma CompetitorsSorted(signals: seq<CompetitorSignal>, primary: App)
    ensures SortBy(CompetitorLe, Map(CompetitorOf(signals, primary), CompetitorsUnder(signals, primary)))
         == Map(CompetitorOf(signals, primary), SortBy(AppLe, CompetitorsUnder(signals, primary)))
  {
    MapOfSort(CompetitorOf(signals, primary), AppLe, CompetitorLe, CompetitorsUnder(signals, primary));
  }

  /** The competitors of one primary, filtered, are those of the survivors. */
  lemma CompetitorsCommute(signals: seq<CompetitorSignal>, lookup: Lookup, view: View, primary: App)
    requires forall s :: s in signals ==> WellFormedCompetitor(s, lookup)
    ensures CompetitorsAllowed(view, SortBy(CompetitorLe, Map(CompetitorOf(signals, primary),
                                                              CompetitorsUnder(signals, primary))))
         == SortBy(CompetitorLe, Map(CompetitorOf(CompetitorSurvivors(signals, view), primary),
                                     CompetitorsUnder(CompetitorSurvivors(signals, view), primary)))
  {
    assert News(signals);
    var survivors := CompetitorSurvivors(signals, view);
    var apps, left := CompetitorsUnder(signals, primary), CompetitorsUnder(survivors, primary);
    CompetitorsSorted(signals, primary);
    CompetitorsSorted(survivors, primary);
    MapOfMap(CompetitorOf(signals, primary), CompetitorView(view), ViewedCompetitor(signals, view, primary),
             SortBy(AppLe, apps));
    SurvivingPayloads(signals, view);
    forall a
      ensures ViewedCompetitor(signals, view, primary)(a) == CompetitorOf(survivors, primary)(a)
      ensures CompetitorHasNews(CompetitorOf(survivors, primary)(a)) <==> a in left
    {
      CompetitorViewed(signals, view, primary, a);
      NewsOfMet(survivors, primary, a);
    }
    forall a | a in left
      ensures a in apps
    {
      SurvivorsAreMet(signals, view, primary, a);
    }
    AppsKnown(signals, primary, lookup);
    Regroup(ViewedCompetitor(signals, view, primary), CompetitorOf(survivors, primary), CompetitorHasNews, apps, left,
            lookup.appById);
  }

  function FinishedPrimary(signals: seq<CompetitorSignal>, app: App): Section {
    EmptySection(app).(competitors := SortBy(CompetitorLe, Map(CompetitorOf(signals, app), CompetitorsUnder(signals, app))))
  }

  function FinishedPrimaries(signals: seq<CompetitorSignal>): App -> Section {
    (app: App) => FinishedPrimary(signals, app)
  }

  function PipedPrimaries(signals: seq<CompetitorSignal>, view: View): App -> Section {
    (app: App) => PipedSection(view, FinishedPrimary(signals, app))
  }

  lemma FinalizedPrimary(signals: seq<CompetitorSignal>, app: App)
    ensures FinalizeSection(CompetitorSectionOf(signals)(app)) == FinishedPrimary(signals, app)
  {
  }

  lemma CompetitorBatchApps(signals: seq<CompetitorSignal>, now: int)
    ensures CompetitorBatch(signals, now).apps == Map(FinishedPrimaries(signals), SortBy(AppLe, PrimariesOf(signals)))
  {
    var apps := PrimariesOf(signals);
    forall a
      ensures FinishedPrimaries(signals)(a) == FinalizeSection(CompetitorSectionOf(signals)(a))
    {
      FinalizedPrimary(signals, a);
    }
    MapOfMap(CompetitorSectionOf(signals), FinalizeSection, FinishedPrimaries(signals), apps);
    MapOfSort(FinishedPrimaries(signals), AppLe, SectionLe, apps);
  }

  /** One primary's section, filtered: only its competitors can be left. */
  lemma PipedPrimary(signals: seq<CompetitorSignal>, lookup: Lookup, view: View, app: App)
    requires forall s :: s in signals ==> WellFormedCompetitor(s, lookup)
    requires view.scope == CompetitorApps
    ensures PipedSection(view, FinishedPrimary(signals, app)) == FinishedPrimary(CompetitorSurvivors(signals, view), app)
    ensures HasContent(FinishedPrimary(CompetitorSurvivors(signals, view), app)) <==>
              app in PrimariesOf(CompetitorSurvivors(signals, view))
  {
    CompetitorsCommute(signals, lookup, view, app);
    MetPrimaries(CompetitorSurvivors(signals, view), app);
    PipedEmpty(view, FinishedPrimary(signals, app));
  }

  lemma PipedEmpty(view: View, section: Section)
    requires view.scope == CompetitorApps
    requires section == Section(section.app, [], [], [], [], [], [], [], [], [], [], [], [], [], [], section.competitors)
    ensures PipedSection(view, section) == section.(competitors := CompetitorsAllowed(view, section.competitors))
  {
  }

  lemma PrimariesCommute(signals: seq<CompetitorSignal>, lookup: Lookup, now: int, view: View)
    requires forall s :: s in signals ==> WellFormedCompetitor(s, lookup)
    requires view.scope == CompetitorApps
    ensures Filter(HasContent, Map(SectionPipe(view), CompetitorBatch(signals, now).apps))
         == CompetitorBatch(CompetitorSurvivors(signals, view), now).apps
  {
    CompetitorBatchApps(signals, now);
    CompetitorBatchApps(CompetitorSurvivors(signals, view), now);
    MapOfMap(FinishedPrimaries(signals), SectionPipe(view), PipedPrimaries(signals, view),
             SortBy(AppLe, PrimariesOf(signals)));
    RegroupPrimaries(signals, lookup, view);
  }

  lemma RegroupPrimaries(signals: seq<CompetitorSignal>, lookup: Lookup, view: View)
    requires forall s :: s in signals ==> WellFormedCompetitor(s, lookup)
    requires view.scope == CompetitorApps
    ensures Filter(HasContent, Map(PipedPrimaries(signals, view), SortBy(AppLe, PrimariesOf(signals))))
         == Map(FinishedPrimaries(CompetitorSurvivors(signals, view)),
                SortBy(AppLe, PrimariesOf(CompetitorSurvivors(signals, view))))
  {
    var apps, left := PrimariesOf(signals), PrimariesOf(CompetitorSurvivors(signals, view));
    var piped, finished := PipedPrimaries(signals, view), FinishedPrimaries(CompetitorSurvivors(signals, view));
    forall a | a in apps
      ensures piped(a) == finished(a) && (HasContent(finished(a)) <==> a in left)
    {
      PipedPrimary(signals, lookup, view, a);
    }
    forall a | a in left
      ensures a in apps
    {
      SurvivorsAreMet(signals, view, a, a);
    }
    PrimariesKnown(signals, lookup);
    Regroup(piped, finished, HasContent, apps, left, lookup.appById);
  }

  lemma PrimariesKnown(signals: seq<CompetitorSignal>, lookup: Lookup)
    requires forall s :: s in signals ==> WellFormedCompetitor(s, lookup)
    ensures IdsName(PrimariesOf(signals), lookup.appById)
  {
    if PrimariesOf(signals) != [] {
      AppsKnown(signals, PrimariesOf(signals)[0], lookup);
    }
  }

  // The count of competitor apps

  predicate ShowsId(section: Section, id: Id) {
    id in Map(CompetitorSectionId, section.competitors)
  }

  lemma {:induction false} ShownIsCounted(sections: seq<Section>, k: nat, id: Id)
    requires k < |sections| && ShowsId(sections[k], id)
    ensures id in CompetitorIds(sections)
  {
    if k < |sections| - 1 {
      ShownIsCounted(Init(sections), k, id);
    }
  }

  lemma {:induction false} CountedIsShown(sections: seq<Section>, id: Id) returns (k: nat)
    requires id in CompetitorIds(sections)
    ensures k < |sections| && ShowsId(sections[k], id)
  {
    if id in CompetitorIds(Init(sections)) {
      k := CountedIsShown(Init(sections), id);
    } else {
      k := |sections| - 1;
    }
  }

  lemma {:induction false} SignalOfCompetitor(signals: seq<CompetitorSignal>, primary: App, app: App)
    ensures app in CompetitorsUnder(signals, primary) <==>
              exists s :: s in signals && s.primary == primary && s.competitor == app
    ensures primary in PrimariesOf(signals) <==> exists s :: s in signals && s.primary == primary
  {
    if signals != [] {
      var rest, signal := Init(signals), Last(signals);
      assert signals == rest + [signal];
      SignalOfCompetitor(rest, primary, app);
      CompetitorsUnderAppend(rest, signal, primary);
      PrimariesAppend(rest, signal);
      assert signal in signals && forall s :: s in signals <==> s in rest || s == signal;
    }
  }

  /** The apps counted in the sections are the competitors of the signals. */
  lemma CompetitorCount(signals: seq<CompetitorSignal>, now: int)
    ensures |Unique(CompetitorIds(CompetitorBatch(signals, now).apps))| == |Unique(Map(CompetitorIdOf, signals))|
  {
    var sections := CompetitorBatch(signals, now).apps;
    var ids := Map(CompetitorIdOf, signals);
    CompetitorBatchApps(signals, now);
    forall id
      ensures id in CompetitorIds(sections) <==> id in ids
    {
      CompetitorIdMet(signals, id);
    }
    SameElements(Unique(CompetitorIds(sections)), Unique(ids));
    assert |multiset(Unique(ids))| == |Unique(ids)|;
  }

  lemma CompetitorIdMet(signals: seq<CompetitorSignal>, id: Id)
    ensures id in CompetitorIds(Map(FinishedPrimaries(signals), SortBy(AppLe, PrimariesOf(signals)))) <==>
              id in Map(CompetitorIdOf, signals)
  {
    var ids := Map(CompetitorIdOf, signals);
    var primaries := SortBy(AppLe, PrimariesOf(signals));
    if id in ids {
      var i :| 0 <= i < |ids| && ids[i] == id;
      var k := SectionShows(signals, i);
      ShownIsCounted(Map(FinishedPrimaries(signals), primaries), k, id);
    }
    if id in CompetitorIds(Map(FinishedPrimaries(signals), primaries)) {
      var k := CountedIsShown(Map(FinishedPrimaries(signals), primaries), id);
      SignalShown(signals, primaries[k], id);
    }
  }

  lemma SectionShows(signals: seq<CompetitorSignal>, i: nat) returns (k: nat)
    requires i < |signals|
    ensures k < |SortBy(AppLe, PrimariesOf(signals))|
    ensures ShowsId(FinishedPrimary(signals, SortBy(AppLe, PrimariesOf(signals))[k]), signals[i].competitor.id)
  {
    var s := signals[i];
    assert s in signals;
    SignalOfCompetitor(signals, s.primary, s.competitor);
    SortedMember(AppLe, PrimariesOf(signals), s.primary);
    k :| 0 <= k < |SortBy(AppLe, PrimariesOf(signals))| && SortBy(AppLe, PrimariesOf(signals))[k] == s.primary;
    CompetitorShown(signals, s.primary, s.competitor);
    var shown := FinishedPrimary(signals, s.primary).competitors;
    var j :| 0 <= j < |shown| && shown[j] == CompetitorFor(signals, s.primary, s.competitor);
    assert Map(CompetitorSectionId, shown)[j] == s.competitor.id;
  }

  lemma SignalShown(signals: seq<CompetitorSignal>, primary: App, id: Id)
    requires ShowsId(FinishedPrimary(signals, primary), id)
    ensures id in Map(CompetitorIdOf, signals)
  {
    var shown := FinishedPrimary(signals, primary).competitors;
    var j :| 0 <= j < |shown| && Map(CompetitorSectionId, shown)[j] == id;
    var app := ShownCompetitor(signals, primary, shown[j]);
    SignalOfCompetitor(signals, primary, app);
    var signal :| signal in signals && signal.primary == primary && signal.competitor == app;
    var i :| 0 <= i < |signals| && signals[i] == signal;
    assert Map(CompetitorIdOf, signals)[i] == app.id;
  }

  lemma CompetitorShown(signals: seq<CompetitorSignal>, primary: App, app: App)
    requires app in CompetitorsUnder(signals, primary)
    ensures CompetitorFor(signals, primary, app) in FinishedPrimary(signals, primary).competitors
  {
    var apps := CompetitorsUnder(signals, primary);
    var list := Map(CompetitorOf(signals, primary), apps);
    var i :| 0 <= i < |apps| && apps[i] == app;
    assert list[i] == CompetitorFor(signals, primary, app);
    SortedMember(CompetitorLe, list, list[i]);
  }

  lemma ShownCompetitor(signals: seq<CompetitorSignal>, primary: App, section: CompetitorSection) returns (app: App)
    requires section in FinishedPrimary(signals, primary).competitors
    ensures app in CompetitorsUnder(signals, primary) && section.app.id == app.id
  {
    var apps := CompetitorsUnder(signals, primary);
    var list := Map(CompetitorOf(signals, primary), apps);
    SortedMember(CompetitorLe, list, section);
    var i :| 0 <= i < |list| && list[i] == section;
    app := apps[i];
  }

  /**
   Filtering the competitor batch is assembling its surviving signals: the same nested sections in
   the same order, the same events and the same count of competitor apps.
   */
  lemma CompetitorFilterCommutes(signals: seq<CompetitorSignal>, lookup: Lookup, now: int, allowed: set<Kind>,
                                 options: Options)
    requires forall s :: s in signals ==> WellFormedCompetitor(s, lookup)
    ensures var batch := CompetitorBatch(signals, now);
            var survivors := CompetitorSurvivors(signals, ViewOf(CompetitorApps, batch.events, allowed, options));
            FilterBatch(batch, allowed, options)
            == if survivors == [] then None
               else Some(CompetitorBatch(survivors, now).(from := batch.from))
  {
    var batch := CompetitorBatch(signals, now);
    var view := ViewOf(CompetitorApps, batch.events, allowed, options);
    var survivors := CompetitorSurvivors(signals, view);
    assert News(signals);
    FilterInOneStep(batch, allowed, options);
    SurvivingPayloads(signals, view);
    PrimariesCommute(signals, lookup, now, view);
    CompetitorCount(survivors, now);
    CompetitorBatchApps(survivors, now);
    if survivors != [] {
      SignalOfCompetitor(survivors, survivors[0].primary, survivors[0].competitor);
    } else {
      assert PrimariesOf(survivors) == [];
    }
  }
}
