/**
 Sequences of callbacks. The position stream, the heading stream, the two
 buttons and the map's region changes deliver events one at a time in any
 interleaving; `Run` applies them in order, and the lemmas below state what
 holds after any such sequence.
 */
module AppTraces {
  import opened Wrappers
  import opened AppState

  /** One handler invocation. */
  datatype Event =
    | PositionFix(position: Location)
    | HeadingFix(trueHeading: Option<real>)
    | ResetView
    | CenterView
    | RegionChange(region: Region)

  function Step(s: ViewState, e: Event): ViewState {
    match e
    case PositionFix(p) => PositionStep(s, p)
    case HeadingFix(h) => HeadingStep(s, h)
    case ResetView => CenterRegionStep(s)
    case CenterView => CenterViewStep(s)
    case RegionChange(r) => RegionChangeStep(s, r)
  }

  /** The state after delivering `evs`, in order, to a component in state `s`. */
  function Run(s: ViewState, evs: seq<Event>): ViewState
    decreases |evs|
  {
    if evs == [] then s else Step(Run(s, evs[..|evs| - 1]), evs[|evs| - 1])
  }

  /** The number of position callbacks that took the `!initialized` branch and called `_centerRegion`. */
  function AutoCenters(s: ViewState, evs: seq<Event>): nat
    decreases |evs|
  {
    if evs == [] then 0
    else
      var before := evs[..|evs| - 1];
      AutoCenters(s, before)
        + (if evs[|evs| - 1].PositionFix? && !Run(s, before).initialized then 1 else 0)
  }

  predicate HasPosition(evs: seq<Event>) {
    exists i | 0 <= i < |evs| :: evs[i].PositionFix?
  }

  predicate OnlyHeadings(evs: seq<Event>) {
    forall i | 0 <= i < |evs| :: evs[i].HeadingFix?
  }

  /** No button press and no region change: only sensor callbacks. */
  predicate OnlySensors(evs: seq<Event>) {
    forall i | 0 <= i < |evs| :: evs[i].PositionFix? || evs[i].HeadingFix?
  }

  /** The `trueHeading` of the last heading event of `evs`, or `h` when there is none. */
  function LastHeading(h: Option<real>, evs: seq<Event>): Option<real>
    decreases |evs|
  {
    if evs == [] then h
    else if evs[|evs| - 1].HeadingFix? then evs[|evs| - 1].trueHeading
    else LastHeading(h, evs[..|evs| - 1])
  }

  /** The zooms of the regions the user panned or zoomed to in `evs`. */
  function ChosenZooms(evs: seq<Event>): set<Zoom>
    decreases |evs|
  {
    if evs == [] then {}
    else
      var rest := ChosenZooms(evs[..|evs| - 1]);
      if evs[|evs| - 1].RegionChange? then rest + {ZoomOf(evs[|evs| - 1].region)} else rest
  }

  /** Delivering `a` and then `b` is delivering `a + b`. */
  lemma {:induction false} RunAppend(s: ViewState, a: seq<Event>, b: seq<Event>)
    ensures Run(s, a + b) == Run(Run(s, a), b)
    decreases |b|
  {
    if b == [] {
      assert a + b == a;
    } else {
      var b' := b[..|b| - 1];
      assert (a + b)[..|a + b| - 1] == a + b';
      assert (a + b)[|a + b| - 1] == b[|b| - 1];
      RunAppend(s, a, b');
    }
  }

  /** `initialized` becomes true with the first position callback and never returns to false. */
  lemma {:induction false} RunInitialized(s: ViewState, evs: seq<Event>)
    ensures Run(s, evs).initialized <==> s.initialized || HasPosition(evs)
    decreases |evs|
  {
    if evs != [] {
      var before := evs[..|evs| - 1];
      RunInitialized(s, before);
      if HasPosition(before) {
        var i :| 0 <= i < |before| && before[i].PositionFix?;
        assert evs[i] == before[i];
      }
      if HasPosition(evs) && !evs[|evs| - 1].PositionFix? {
        var i :| 0 <= i < |evs| && evs[i].PositionFix?;
        assert before[i] == evs[i];
      }
    }
  }

  /** Once the component is initialized, a region is always shown. */
  predicate RegionOnceInitialized(s: ViewState) {
    s.initialized ==> s.mapRegion.Some?
  }

  /** Every callback keeps `RegionOnceInitialized`. */
  lemma {:induction false} RunKeepsRegionOnceInitialized(s: ViewState, evs: seq<Event>)
    requires RegionOnceInitialized(s)
    ensures RegionOnceInitialized(Run(s, evs))
    decreases |evs|
  {
    if evs != [] {
      RunKeepsRegionOnceInitialized(s, evs[..|evs| - 1]);
    }
  }

  /** The region stays absent exactly as long as only heading callbacks have run. */
  lemma {:induction false} RunRegionAbsent(s: ViewState, evs: seq<Event>)
    requires RegionOnceInitialized(s)
    ensures Run(s, evs).mapRegion.None? <==> s.mapRegion.None? && OnlyHeadings(evs)
    decreases |evs|
  {
    if evs != [] {
      var before := evs[..|evs| - 1];
      RunRegionAbsent(s, before);
      RunKeepsRegionOnceInitialized(s, before);
      assert forall i | 0 <= i < |before| :: before[i] == evs[i];
      assert OnlyHeadings(evs) <==> OnlyHeadings(before) && evs[|evs| - 1].HeadingFix?;
    }
  }

  /** `_getRegion` gives nothing until a position callback, a button press or a region change. */
  lemma InitialRegionAbsent(evs: seq<Event>)
    ensures GetRegion(Run(Initial, evs)).None? <==> OnlyHeadings(evs)
  {
    RunRegionAbsent(Initial, evs);
  }

  /** From an uninitialized component, `_centerRegion` is auto-called exactly once if any position arrives, never otherwise. */
  lemma {:induction false} AutoCenterOnce(s: ViewState, evs: seq<Event>)
    ensures AutoCenters(s, evs) == if !s.initialized && HasPosition(evs) then 1 else 0
    decreases |evs|
  {
    if evs != [] {
      var before := evs[..|evs| - 1];
      AutoCenterOnce(s, before);
      RunInitialized(s, before);
      if HasPosition(before) {
        var i :| 0 <= i < |before| && before[i].PositionFix?;
        assert evs[i] == before[i];
      }
      if HasPosition(evs) && !evs[|evs| - 1].PositionFix? {
        var i :| 0 <= i < |evs| && evs[i].PositionFix?;
        assert before[i] == evs[i];
      }
    }
  }

  /** Once initialized, later position and heading callbacks never touch the region. */
  lemma {:induction false} SensorsKeepRegion(s: ViewState, evs: seq<Event>)
    requires s.initialized
    requires OnlySensors(evs)
    ensures Run(s, evs).mapRegion == s.mapRegion
    ensures Run(s, evs).initialized
    decreases |evs|
  {
    if evs != [] {
      var before := evs[..|evs| - 1];
      assert forall i | 0 <= i < |before| :: before[i] == evs[i];
      SensorsKeepRegion(s, before);
    }
  }

  /**
   After headings only, a first position and then any sensor callbacks, the
   region is the one centred on the first sample at the default zoom.
   */
  lemma FirstFixCenters(pre: seq<Event>, p: Location, post: seq<Event>)
    requires OnlyHeadings(pre)
    requires OnlySensors(post)
    ensures Run(Initial, pre + [PositionFix(p)] + post).mapRegion == Some(CenteredRegion(p.coords))
  {
    RunInitialized(Initial, pre);
    RunAppend(Initial, pre + [PositionFix(p)], post);
    RunAppend(Initial, pre, [PositionFix(p)]);
    assert Run(Run(Initial, pre), [PositionFix(p)]) == PositionStep(Run(Initial, pre), p);
    SensorsKeepRegion(Run(Initial, pre + [PositionFix(p)]), post);
  }

  /** The stored heading is the last one delivered. */
  lemma {:induction false} RunHeading(s: ViewState, evs: seq<Event>)
    ensures Run(s, evs).heading == LastHeading(s.heading, evs)
    decreases |evs|
  {
    if evs != [] {
      RunHeading(s, evs[..|evs| - 1]);
    }
  }

  /** The marker's rotation follows the last heading delivered; with none delivered there is no rotation. */
  lemma {:induction false} RotationFollowsLastHeading(evs: seq<Event>)
    ensures Rotate(Run(Initial, evs)) == MarkerRotation(LastHeading(None, evs))
    ensures (forall i | 0 <= i < |evs| :: !evs[i].HeadingFix?) ==> !ShowsPointer(Run(Initial, evs))
  {
    RunHeading(Initial, evs);
    NoHeadingKeeps(None, evs);
  }

  lemma {:induction false} NoHeadingKeeps(h: Option<real>, evs: seq<Event>)
    ensures (forall i | 0 <= i < |evs| :: !evs[i].HeadingFix?) ==> LastHeading(h, evs) == h
    decreases |evs|
  {
    if evs != [] {
      var before := evs[..|evs| - 1];
      NoHeadingKeeps(h, before);
      if forall i | 0 <= i < |evs| :: !evs[i].HeadingFix? {
        assert forall i | 0 <= i < |before| :: before[i] == evs[i];
      }
    }
  }

  /**
   The zoom shown is the default one, none (Center View before any region),
   the one the component started with, or one the user chose.
   */
  lemma {:induction false} RunZoom(s: ViewState, evs: seq<Event>)
    requires Run(s, evs).mapRegion.Some?
    ensures ZoomOf(Run(s, evs).mapRegion.value) in
              {DefaultZoom, NoZoom} + ChosenZooms(evs)
              + (if s.mapRegion.Some? then {ZoomOf(s.mapRegion.value)} else {})
    decreases |evs|
  {
    if evs != [] {
      var before := evs[..|evs| - 1];
      if Run(s, before).mapRegion.Some? {
        RunZoom(s, before);
      }
    }
  }

  /** A sample whose coordinates equal the stored ones changes nothing once initialized. */
  lemma DuplicateSampleNoChange(s: ViewState, q: Location)
    requires s.initialized && s.location.coords == q.coords
    ensures PositionStep(s, q) == s
  {
  }

  /** Delivering the same coordinates twice: the second callback changes nothing. */
  lemma RepeatedSampleIdempotent(s: ViewState, p: Location, q: Location)
    requires q.coords == p.coords
    ensures PositionStep(PositionStep(s, p), q) == PositionStep(s, p)
  {
  }

  /** "Reset View" twice is "Reset View" once. */
  lemma ResetViewIdempotent(s: ViewState)
    ensures CenterRegionStep(CenterRegionStep(s)) == CenterRegionStep(s)
  {
  }

  /** "Center View" right after "Reset View" changes nothing. */
  lemma CenterViewAfterReset(s: ViewState)
    ensures CenterViewStep(CenterRegionStep(s)) == CenterRegionStep(s)
  {
  }

  /** "Center View" twice is "Center View" once. */
  lemma CenterViewIdempotent(s: ViewState)
    ensures CenterViewStep(CenterViewStep(s)) == CenterViewStep(s)
  {
  }

  /** A first sample at (40, -70): stored, initialized, centred there at the default zoom. */
  lemma FirstFixScenario(t: int)
    ensures var s := PositionStep(Initial, Location(Coords(40.0, -70.0), Some(t)));
            s.location == Location(Coords(40.0, -70.0), Some(t)) && s.initialized
            && s.mapRegion == Some(Region(40.0, -70.0, Some(0.0922), Some(0.0421)))
  {
  }

  /** A first sample at the default coordinates is not stored, yet it still initializes and centres. */
  lemma DuplicateFirstFixScenario(t: int)
    ensures var s := PositionStep(Initial, Location(DefaultCoords, Some(t)));
            s.location == Initial.location && s.initialized
            && s.mapRegion == Some(Region(37.78825, -122.4324, Some(0.0922), Some(0.0421)))
  {
  }

  /** A heading of 45 rotates the marker by 45 degrees; a heading of -1 removes the rotation. */
  lemma HeadingScenario(s: ViewState)
    ensures Rotate(HeadingStep(s, Some(45.0))) == Some(45.0)
    ensures ShowsPointer(HeadingStep(s, Some(45.0)))
    ensures Rotate(HeadingStep(HeadingStep(s, Some(45.0)), Some(-1.0))) == None
    ensures !ShowsPointer(HeadingStep(s, Some(-1.0)))
  {
  }
}
