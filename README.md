# Map view state of `App`

A model of the view-state controller inside the single React Native component
`App` of a map screen. The component keeps the last known location (starting at
the default coordinates 37.78825, -122.4324), a flag telling whether the first
position sample has been handled, the region shown on the map and the last
compass heading. Position samples are de-duplicated by structural equality of
their coordinates; the first sample re-centres the map once at the default zoom
(0.0922 by 0.0421); "Reset View" re-centres at the default zoom; "Center View"
re-centres and keeps the zoom; a pan or zoom by the user replaces the region;
and the marker is rotated by the heading when the heading is a non-negative
number.

Layout:

- `wrappers.dfy`: `Option`, for state fields that may be absent.
- `app_state.dfy` (module `AppState`): the state as a value (`ViewState`), the
  regions built by `Object.assign` merges, one pure step function per handler,
  and the `rotate` derivation of `render` (`MarkerRotation`).
- `app.dfy` (module `AppComponent`): `class App` with the four state fields and
  one method per handler. Every method states its whole new state and that it
  equals the matching step function applied to the old state, so every lemma
  about the step functions also holds of the object.
- `app_traces.dfy` (module `AppTraces`): any interleaving of position samples,
  heading samples, button presses and region changes as a sequence of events,
  `Run` to apply them in order, and the lemmas that hold across whole
  sequences (initialization happens once and sticks, the auto-centre runs
  exactly once, sensor callbacks never move the region after that, the
  rotation follows the last heading).

Modelling choices:

- Each `setState` is an immediate assignment. So `_centerRegion`, called
  from the position callback, sees the location that callback has just stored.
- Coordinates, deltas and headings are `real`s. They are only stored,
  compared and copied.
- lodash `isEqual` on coordinates is datatype equality.
- `heading` is `Option<real>`. `None` stands for "never set", and also for a
  `trueHeading` that is not a number; `rotate` treats the two alike.
- The position sample keeps its coordinates and an optional timestamp. The
  default location has none. So a sample that repeats the stored
  coordinates with a new timestamp is not stored.

Behaviour worth noting:

- The first position callback initializes and centres the map even when its
  coordinates equal the stored ones. The `!initialized` test sits outside
  the de-duplication branch (App.js:66-72).
- "Center View" pressed before any region exists gives a region with both
  deltas absent, because `Object.assign({}, undefined, coords)` copies only
  the coordinates (App.js:43). So the region is absent until the first
  sample, button press or region change (`AppTraces.InitialRegionAbsent`).
- No callback checks whether the component is still mounted (App.js:56, 82).
  So there is no guard against updates after teardown to model.

## Model

| member | source | states |
|---|---|---|
| `AppComponent.App.constructor` | App.js:8-16 | the initial state: coordinates (37.78825, -122.4324) with no timestamp, not initialized, no region, no heading |
| `AppComponent.App.CenterRegion` | App.js:31-40 | the region becomes the stored coordinates at the default deltas 0.0922 and 0.0421; location, flag and heading unchanged |
| `AppComponent.App.CenterView` | App.js:42-45 | the region is centred on the stored coordinates and keeps the previous region's deltas; nothing else changes |
| `AppComponent.App.HandleMapRegionChange` | App.js:51-53 | the region becomes exactly the given one; location, flag and heading unchanged |
| `AppComponent.App.OnPosition` | App.js:65-73 | location replaced only when the coordinates differ; afterwards initialized; the region centred on the sample at the default zoom if and only if this was the first callback, otherwise untouched; heading unchanged |
| `AppComponent.App.OnHeading` | App.js:76-78 | the heading becomes `trueHeading` unconditionally; nothing else changes |
| `AppComponent.App.HandleButton` | App.js:103-106 | "Reset View" has the effect of `_centerRegion`: default zoom, centred on the stored coordinates, whatever the previous zoom |
| `AppComponent.MountAndFirstFix` | App.js:55-73 | after mounting and the first sample, `_getRegion` gives the sample's coordinates at the default zoom |
| `AppState.GetLocationRegion` | App.js:18-24 | the merged region's centre is the stored coordinates; its deltas are the previous region's, or absent when there was none |
| `AppState.CenteredRegion` | App.js:34-37 | the region is centred on the given coordinates at the default zoom |
| `AppState.CenterRegionStep` | App.js:31-40 | a region is present, centred on the stored coordinates, at the default zoom; other fields unchanged |
| `AppState.CenterViewStep` | App.js:42-45 | a region is present, centred on the stored coordinates; it equals the previous region with only latitude and longitude replaced, so both deltas are kept; with no previous region the deltas are absent |
| `AppState.RegionChangeStep` | App.js:51-53 | the region is the given one; other fields unchanged |
| `AppState.PositionStep` | App.js:65-73 | equal coordinates keep the location, different ones store the sample; initialized afterwards; region centred on the sample's coordinates on the first callback (duplicate or not), unchanged afterwards; heading unchanged |
| `AppState.HeadingStep` | App.js:76-78 | heading stored unconditionally; other fields unchanged |
| `AppState.GetRegion` | App.js:47-49 | `_getRegion` hands the map the stored region itself, unmerged; when present its zoom is the one `_getLocationRegion` would keep |
| `AppState.Rotate` | App.js:114-115 | a state's marker rotation exists if and only if its heading is a number at least 0, and then it is that heading |
| `AppState.ShowsPointer` | App.js:131-135 | the pointer glyph is rendered if and only if the stored heading is a number at least 0 |
| `AppState.MarkerRotation` | App.js:114-115 | a rotation exists if and only if the heading is a number and at least 0, and then it is that heading in degrees |
| `AppTraces.RunKeepsRegionOnceInitialized` | App.js:69-72 | along any sequence of callbacks, an initialized component always has a region |
| `AppTraces.RunInitialized` | App.js:69-71 | after any sequence, initialized if and only if it was before or a position callback occurred; it never returns to false |
| `AppTraces.RunRegionAbsent` | App.js:47-49 | the region is absent after a sequence if and only if it was absent before and only heading callbacks occurred |
| `AppTraces.InitialRegionAbsent` | App.js:47-49 | from the initial state, `_getRegion` gives nothing if and only if only heading callbacks have occurred |
| `AppTraces.AutoCenterOnce` | App.js:69-72 | from an uninitialized state the auto-centre runs exactly once if any position arrives, and never otherwise |
| `AppTraces.SensorsKeepRegion` | App.js:65-78 | once initialized, position and heading callbacks never change the region |
| `AppTraces.FirstFixCenters` | App.js:65-73 | headings, then a first position, then any sensor callbacks: the region is the first sample's coordinates at the default zoom |
| `AppTraces.RunHeading` | App.js:76-78 | the stored heading is the last one delivered, or the earlier one when none was delivered |
| `AppTraces.RotationFollowsLastHeading` | App.js:114-135 | the marker's rotation is derived from the last heading delivered; with none delivered no pointer is shown |
| `AppTraces.RunZoom` | App.js:31-53 | the zoom shown is the default one, absent, the starting one, or one the user chose by a region change |
| `AppTraces.DuplicateSampleNoChange` | App.js:66-72 | once initialized, a sample at the stored coordinates changes nothing |
| `AppTraces.RepeatedSampleIdempotent` | App.js:65-73 | the second of two samples with equal coordinates changes nothing |
| `AppTraces.ResetViewIdempotent` | App.js:31-40 | pressing "Reset View" twice is pressing it once |
| `AppTraces.CenterViewAfterReset` | App.js:31-45 | "Center View" right after "Reset View" changes nothing |
| `AppTraces.CenterViewIdempotent` | App.js:42-45 | pressing "Center View" twice is pressing it once |
| `AppTraces.FirstFixScenario` | App.js:65-73 | a first sample at (40, -70) is stored, initializes, and centres there with deltas 0.0922 and 0.0421 |
| `AppTraces.DuplicateFirstFixScenario` | App.js:8-72 | a first sample at the default coordinates is not stored, yet it initializes and centres on them |
| `AppTraces.HeadingScenario` | App.js:114-135 | heading 45 gives a 45-degree rotation and shows the pointer; heading -1 gives none |

## Left out

- The Expo calls `Location.watchPositionAsync`, `Location.watchHeadingAsync`, `Location.getCurrentPositionAsync` and `Permissions.askAsync` (App.js:27, 63-64, 75, 89, 96) are foreign APIs. Only the bodies of the two watch callbacks are modelled, as `OnPosition` and `OnHeading`.
- `_getLocationAsync` is asynchronous and depends on permissions. It is defined twice, the second definition replacing the first (App.js:26-29, 88-101), and it is never invoked.
- `componentDidMount`, `componentWillUnmount`, the `mounted` flag and the `.remove()` handles (App.js:55-58, 81-86) are lifecycle plumbing. No callback reads `mounted`.
- React's batching and asynchrony of `setState` are not modelled. Assignments are synchronous.
- JSX rendering, styles, layout constants, `console.log`, `_onRegionChange` (only logs) and the never-set `gyroscopeData` text (App.js:109-111, 117-242) are left out. The one exception is the `rotate` expression and whether the pointer glyph is rendered.
- `rotate` is the string `${heading}deg`. It is modelled as the number of degrees, and the string formatting is left out.
- Coordinates are reduced to latitude and longitude. Expo's `position.coords` also carries accuracy, altitude, speed and heading. lodash `isEqual` compares those too, and `Object.assign` copies them into regions. In the model, two samples with equal latitude and longitude but a different accuracy are duplicates. The default `coords` (App.js:10-13) has only latitude and longitude, so in the program `isEqual` at App.js:66 never matches a real sample against it and the first sample is always stored; `AppTraces.DuplicateFirstFixScenario` shows a case that arises only in the two-field model, and only its initialize-and-centre half carries over.
- JavaScript numbers are modelled as reals: NaN, infinities and signed zero are not represented. A NaN heading rotates nothing, which is what `None` gives.
