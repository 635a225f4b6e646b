/**
 The `App` component as an object: its state fields, updated in place by one
 method per handler. Each `setState` is an immediate assignment.
 */
module AppComponent {
  import opened Wrappers
  import opened AppState

  class App {
    var location: Location
    var initialized: bool
    var mapRegion: Option<Region>
    var heading: Option<real>

    /** The component's state as a value. */
    function State(): ViewState
      reads this
    {
      ViewState(location, initialized, mapRegion, heading)
    }

    /** The state initialiser: default coordinates, not initialized, no region, no heading. */
    constructor ()
      ensures State() == Initial
      ensures location.coords == DefaultCoords && !initialized
      ensures mapRegion.None? && heading.None?
    {
      location := Location(DefaultCoords, None);
      initialized := false;
      mapRegion := None;
      heading := None;
    }

    /** `_centerRegion`: centre on the stored coordinates at the default zoom. */
    method CenterRegion()
      modifies this
      ensures State() == CenterRegionStep(old(State()))
      ensures mapRegion == Some(CenteredRegion(location.coords))
      ensures location == old(location) && initialized == old(initialized) && heading == old(heading)
    {
      var region := CenteredRegion(location.coords);
      mapRegion := Some(region);
    }

    /** `_centerView` ("Center View"): centre on the stored coordinates, keeping every other field of the region. */
    method CenterView()
      modifies this
      ensures State() == CenterViewStep(old(State()))
      ensures mapRegion.Some? && Center(mapRegion.value) == location.coords
      ensures old(mapRegion).Some? ==> ZoomOf(mapRegion.value) == ZoomOf(old(mapRegion).value)
      ensures location == old(location) && initialized == old(initialized) && heading == old(heading)
    {
      var region := GetLocationRegion(State());
      mapRegion := Some(region);
    }

    /** `_handleMapRegionChange`: the user's pan or zoom replaces the region. */
    method HandleMapRegionChange(region: Region)
      modifies this
      ensures State() == RegionChangeStep(old(State()), region)
      ensures mapRegion == Some(region)
      ensures location == old(location) && initialized == old(initialized) && heading == old(heading)
    {
      mapRegion := Some(region);
    }

    /** The position-watch callback: de-duplicate, then auto-centre once. */
    method OnPosition(position: Location)
      modifies this
      ensures State() == PositionStep(old(State()), position)
      ensures location == if old(location).coords == position.coords then old(location) else position
      ensures initialized
      ensures mapRegion == if old(initialized) then old(mapRegion) else Some(CenteredRegion(position.coords))
      ensures heading == old(heading)
    {
      if location.coords != position.coords {
        location := position;
      }
      if !initialized {
        initialized := true;
        CenterRegion();
      }
    }

    /** The heading callback: store `trueHeading` unconditionally. */
    method OnHeading(trueHeading: Option<real>)
      modifies this
      ensures State() == HeadingStep(old(State()), trueHeading)
      ensures heading == trueHeading
      ensures location == old(location) && initialized == old(initialized) && mapRegion == old(mapRegion)
    {
      heading := trueHeading;
    }

    /** `_handleButton` ("Reset View"): re-centre at the default zoom. */
    method HandleButton()
      modifies this
      ensures State() == CenterRegionStep(old(State()))
      ensures mapRegion.Some? && ZoomOf(mapRegion.value) == DefaultZoom
      ensures Center(mapRegion.value) == location.coords
      ensures location == old(location) && initialized == old(initialized) && heading == old(heading)
    {
      CenterRegion();
    }
  }

  /**
   Mounting the component and delivering its first position sample: the map
   is then shown centred on that sample at the default zoom, even when the
   sample repeats the default coordinates.
   */
  method MountAndFirstFix(position: Location) returns (region: Option<Region>)
    ensures region == Some(CenteredRegion(position.coords))
    ensures ZoomOf(region.value) == DefaultZoom
  {
    var app := new App();
    app.OnPosition(position);
    region := GetRegion(app.State());
  }
}
