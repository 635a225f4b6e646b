/**
 The view state of the map screen's `App` component, as values, with one
 pure step function per handler. Coordinates, deltas and headings are only
 stored, compared and copied, so they are modelled as `real`s.
 */
module AppState {
  import opened Wrappers

  /** `position.coords`, reduced to the two fields the component reads. */
  datatype Coords = Coords(latitude: real, longitude: real)

  /** `state.location`: the default object (no timestamp) or the last position sample stored. */
  datatype Location = Location(coords: Coords, timestamp: Option<int>)

  /**
   `state.mapRegion`. Regions are built by `Object.assign`, so the
   coordinate fields are always present but the two deltas are absent when
   the region was merged from no previous region.
   */
  datatype Region = Region(latitude: real, longitude: real,
                           latitudeDelta: Option<real>, longitudeDelta: Option<real>)

  /** The zoom of a region: its two deltas. */
  datatype Zoom = Zoom(latitudeDelta: Option<real>, longitudeDelta: Option<real>)

  /**
   The component's state. `heading` is `None` while no heading has been
   stored or when the stored `trueHeading` is not a number.
   */
  datatype ViewState = ViewState(location: Location, initialized: bool,
                                 mapRegion: Option<Region>, heading: Option<real>)

  const DefaultCoords: Coords := Coords(37.78825, -122.4324)
  const DefaultLatitudeDelta: real := 0.0922
  const DefaultLongitudeDelta: real := 0.0421
  const DefaultZoom: Zoom := Zoom(Some(DefaultLatitudeDelta), Some(DefaultLongitudeDelta))
  const NoZoom: Zoom := Zoom(None, None)

  /** The state initialiser of the component. */
  const Initial: ViewState := ViewState(Location(DefaultCoords, None), false, None, None)

  function Center(r: Region): Coords {
    Coords(r.latitude, r.longitude)
  }

  function ZoomOf(r: Region): Zoom {
    Zoom(r.latitudeDelta, r.longitudeDelta)
  }

  /** `_getRegion`: the region handed to the map, absent until one has been set. */
  function GetRegion(s: ViewState): (r: Option<Region>)
    ensures r == s.mapRegion
    ensures r.Some? ==> ZoomOf(r.value) == ZoomOf(GetLocationRegion(s))
  {
    s.mapRegion
  }

  /**
   `Object.assign({}, mapRegion, coords)`: the previous region, if any,
   moved to the stored coordinates.
   */
  function GetLocationRegion(s: ViewState): (r: Region)
    ensures Center(r) == s.location.coords
    ensures s.mapRegion.Some? ==> ZoomOf(r) == ZoomOf(s.mapRegion.value)
    ensures s.mapRegion.None? ==> ZoomOf(r) == NoZoom
  {
    var c := s.location.coords;
    match s.mapRegion
    case None => Region(c.latitude, c.longitude, None, None)
    case Some(prev) => prev.(latitude := c.latitude, longitude := c.longitude)
  }

  /** `Object.assign({latitudeDelta: 0.0922, longitudeDelta: 0.0421}, coords)`. */
  function CenteredRegion(c: Coords): (r: Region)
    ensures Center(r) == c
    ensures ZoomOf(r) == DefaultZoom
  {
    Region(c.latitude, c.longitude, Some(DefaultLatitudeDelta), Some(DefaultLongitudeDelta))
  }

  /** `_centerRegion` (and so "Reset View"): centre on the stored coordinates at the default zoom. */
  function CenterRegionStep(s: ViewState): (t: ViewState)
    ensures t.mapRegion.Some?
    ensures Center(t.mapRegion.value) == s.location.coords
    ensures ZoomOf(t.mapRegion.value) == DefaultZoom
    ensures t.location == s.location && t.initialized == s.initialized && t.heading == s.heading
  {
    s.(mapRegion := Some(CenteredRegion(s.location.coords)))
  }

  /** `_centerView` ("Center View"): centre on the stored coordinates, keeping the zoom. */
  function CenterViewStep(s: ViewState): (t: ViewState)
    ensures t.mapRegion.Some?
    ensures Center(t.mapRegion.value) == s.location.coords
    ensures s.mapRegion.Some? ==> t.mapRegion.value == s.mapRegion.value.(latitude := s.location.coords.latitude, longitude := s.location.coords.longitude)
    ensures s.mapRegion.Some? ==> ZoomOf(t.mapRegion.value) == ZoomOf(s.mapRegion.value)
    ensures s.mapRegion.None? ==> ZoomOf(t.mapRegion.value) == NoZoom
    ensures t.location == s.location && t.initialized == s.initialized && t.heading == s.heading
  {
    s.(mapRegion := Some(GetLocationRegion(s)))
  }

  /** `_handleMapRegionChange`: the region the user panned or zoomed to replaces the stored one. */
  function RegionChangeStep(s: ViewState, region: Region): (t: ViewState)
    ensures t.mapRegion == Some(region)
    ensures t.location == s.location && t.initialized == s.initialized && t.heading == s.heading
  {
    s.(mapRegion := Some(region))
  }

  /**
   The position-watch callback: store the sample unless its coordinates
   equal the stored ones (lodash `isEqual` is structural equality here);
   then, on the first callback only, mark the component initialized and
   centre the region, whether or not the sample was stored.
   */
  function PositionStep(s: ViewState, position: Location): (t: ViewState)
    ensures s.location.coords == position.coords ==> t.location == s.location
    ensures s.location.coords != position.coords ==> t.location == position
    ensures t.location.coords == position.coords
    ensures t.initialized
    ensures s.initialized ==> t.mapRegion == s.mapRegion
    ensures !s.initialized ==> t.mapRegion == Some(CenteredRegion(position.coords))
    ensures t.heading == s.heading
  {
    var stored := if s.location.coords != position.coords then s.(location := position) else s;
    if !stored.initialized then CenterRegionStep(stored.(initialized := true)) else stored
  }

  /** The heading callback: store `trueHeading` unconditionally. */
  function HeadingStep(s: ViewState, trueHeading: Option<real>): (t: ViewState)
    ensures t.heading == trueHeading
    ensures t.location == s.location && t.initialized == s.initialized && t.mapRegion == s.mapRegion
  {
    s.(heading := trueHeading)
  }

  /**
   The `rotate` derivation of `render`: a rotation of `heading` degrees when
   the heading is a number that is not negative, and no rotation otherwise.
   */
  function MarkerRotation(heading: Option<real>): (r: Option<real>)
    ensures r.Some? <==> heading.Some? && heading.value >= 0.0
    ensures r.Some? ==> r.value == heading.value
  {
    match heading
    case Some(h) => if h >= 0.0 then Some(h) else None
    case None => None
  }

  /** The marker's rotation for a state. */
  function Rotate(s: ViewState): (r: Option<real>)
    ensures r.Some? <==> s.heading.Some? && s.heading.value >= 0.0
    ensures r.Some? ==> r.value == s.heading.value
  {
    MarkerRotation(s.heading)
  }

  /** `{rotate && ...}`: the heading pointer glyph is rendered exactly when there is a rotation. */
  predicate ShowsPointer(s: ViewState): (shown: bool)
    ensures shown <==> s.heading.Some? && s.heading.value >= 0.0
  {
    Rotate(s).Some?
  }
}
