# Balloon constellation dashboard: a verified model of its data core

The dashboard shows a constellation of weather balloons on a 3D globe. It works
from 24 hourly snapshots of every balloon's position and from a static wind
field. This project models the three pieces of that dashboard that carry
logic, and proves what they promise:

- **The globe overlays** (`Globe.tsx`, module `Globe` in `globe.dfy`). The
  markers of one hour, the selection filter, the altitude "arcs", and the
  trajectory paths are derived from the constellation and the view's settings.
  The settings are the selected balloon, the hour, all-hours mode and the
  altitude scale. Clicking a marker selects its balloon; clicking the globe
  clears the selection. The plain `map`/`filter` memos are functions. The memos
  that loop and `push` are methods with loops, each proved equal to a
  specification function, and lemmas state the properties of those functions.
  The view's `useState` fields are the class `Globe.GlobeView`.
- **The constellation hook** (`useConstellationData.ts`, module
  `ConstellationData` in `constellation_data.dfy`). The state record
  `{constellation, loading, lastFetch}` is the class `ConstellationState`. It
  has an all-or-nothing refresh from the 24 hourly requests and the two queries
  `getBalloonTrajectory` and `getCurrentPositions`. The request outcomes are
  an input: outcome `i` is the response to `RequestPath(i)` (`/treasure/HH.json`).
  The completion time is an input `now`.
- **The wind hook** (`useWindData.ts`, module `WindData` in `wind_data.dfy`).
  The u and v grids are picked from the grid list by exact label. `getWindAt`
  samples both grids at the nearest-lower cell, with a row-major flat index.

Two modules are shared by the others:

- `DashboardTypes` (`dashboard_types.dfy`) holds the value types of
  `Dashboard.types.ts`.
- `Snapshots` (`snapshots.dfy`) holds the list logic used by both the globe and
  the hook. It has `find` by hour and the stable `Array.prototype.sort` by hour,
  modelled as an insertion sort proved stable. It also has `Present`: the snapshots
  that contain a given balloon index, which is the source's "skip if
  `data[id]` is undefined" rule.

Numbers are modelled as follows:

- Latitudes, longitudes, altitudes and grid steps are `real`. Hours, ids and
  grid sizes are `int`.
- JavaScript's `%` is modelled as a truncating remainder (`JsRem`), and
  `Math.floor` as `.Floor`.
- An array read past its end is modelled as `undefined`, written as an absent
  `Option` (`Lookup`).

The model follows the code in these places, where a reader might expect
otherwise:

- `getCurrentPositions` returns `undefined` when there is no hour-0 snapshot.
  It does not return an empty snapshot.
- The focused arcs skip the hours whose snapshot lacks the balloon. There is
  not one arc per hour.
- No grid header or data length is checked when the wind grids are selected.
  Instead, the contract of `Sample` shows that both components are defined whenever
  each grid holds `nx * ny` values.
- The all-hours trajectory takes its balloon count from the first element of
  the constellation as given, before sorting.

## Model

| member | source | states |
|---|---|---|
| `Snapshots.FindHour` | src/components/dashboard/Globe.tsx:73 | absent exactly when no snapshot has hour `h`; otherwise the snapshot at the first index with that hour |
| `Snapshots.SortByHour` | src/components/dashboard/Globe.tsx:128 | the sorted copy is a permutation of the constellation: same length, same multiset of snapshots |
| `Snapshots.SortByHourSpec` | src/components/dashboard/Globe.tsx:151 | the sorted copy is in ascending or descending hour order, as the comparator asks |
| `Snapshots.SortByHourStable` | src/components/dashboard/Globe.tsx:128 | the sort is stable: the snapshots of any one hour keep their relative order from the input |
| `Snapshots.InsertSpec` | src/components/dashboard/Globe.tsx:151 | one insertion step adds exactly the inserted snapshot, once |
| `Snapshots.InsertKeepsSorted` | src/components/dashboard/Globe.tsx:151 | one insertion step keeps a sorted sequence sorted |
| `Snapshots.InsertStable` | src/components/dashboard/Globe.tsx:128 | an inserted snapshot lands in front of every snapshot of its own hour already in the sequence (it came first in the input, so this is the step stability needs) |
| `Snapshots.SortSortedIsIdentity` | src/hooks/useConstellationData.ts:37 | sorting results that are already in hour order returns them unchanged |
| `Snapshots.Present` | src/components/dashboard/Globe.tsx:103-105 | the snapshots kept by the `if (position)` test all have an entry at the balloon's index, and there are at most as many as snapshots |
| `Snapshots.PresentCount` | src/components/dashboard/Globe.tsx:130-132 | a snapshot holding the index is kept as many times as it occurs in the constellation; one without it is never kept |
| `Snapshots.PresentPerm` | src/components/dashboard/Globe.tsx:128-132 | rearranging the constellation (as the sort does) rearranges the kept snapshots the same way, so their number is the same |
| `Snapshots.PresentMembers` | src/components/dashboard/Globe.tsx:130-132 | a snapshot is kept if and only if it is in the constellation and has an entry at the index |
| `Snapshots.PresentSorted` | src/components/dashboard/Globe.tsx:130-139 | skipping absent hours keeps the remaining snapshots in the order of the sorted input |
| `Snapshots.PresentAll` | src/components/dashboard/Globe.tsx:103-114 | when every snapshot has the index, none is skipped |
| `Snapshots.PositionsSnoc` | src/components/dashboard/Globe.tsx:153-162 | visiting one more snapshot appends its position for the balloon, or nothing when it lacks one |
| `Globe.CurrentBalloons` | src/components/dashboard/Globe.tsx:71-82 | the shown hour is 0 in all-hours mode, otherwise the selected hour; no markers when no snapshot has that hour; otherwise one marker per entry of the first snapshot of that hour, with id = index, the same lat/lng, and alt = raw altitude / altitudeScale |
| `Globe.WithId` | src/components/dashboard/Globe.tsx:88 | the filter keeps only markers of the current list with the selected id, and keeps every such marker |
| `Globe.VisibleBalloons` | src/components/dashboard/Globe.tsx:84-89 | without a selection every current marker is visible; with one, a marker is visible exactly when it is current and has the selected id |
| `Globe.VisibleIsSelectedIndex` | src/components/dashboard/Globe.tsx:84-89 | because ids are indices, a selection shows exactly the marker at that index, or nothing when the index is past the end |
| `Globe.ClickShowsOnlyThatBalloon` | src/components/dashboard/Globe.tsx:170-177 | with no selection the visible markers are the current ones; after selecting a current marker it is the only visible one |
| `Globe.BalloonArcs` | src/components/dashboard/Globe.tsx:91-116 | the loop and the `map` compute the unfocused arcs without a selection and the focused arcs with one |
| `Globe.UnfocusedArcsFollowMarkers` | src/components/dashboard/Globe.tsx:92-100 | one zero-length arc per current marker, in order, with start = end = the marker's lat/lng and height = the marker's alt |
| `Globe.FocusedArcsSkipAbsent` | src/components/dashboard/Globe.tsx:102-115 | one arc per snapshot holding the balloon, in constellation order, at raw altitude / (altitudeScale * 1.2); absent snapshots are skipped, so there are at most `\|constellation\|` arcs, and exactly that many when every snapshot has the balloon |
| `Globe.AllPathsExact` | src/components/dashboard/Globe.tsx:126-146 | all-hours paths: path k is non-empty and is the path of the k-th kept id, and there are as many paths as kept ids |
| `Globe.KeptIdsIncreasing` | src/components/dashboard/Globe.tsx:126 | the kept ids run strictly upwards below the balloon count, so no id has two paths |
| `Globe.KeptIdsMembers` | src/components/dashboard/Globe.tsx:141-143 | an id is kept exactly when it is below the balloon count and its path is non-empty |
| `Globe.CollectPath` | src/components/dashboard/Globe.tsx:150-162 | the push loop returns the balloon's vertices over the sorted snapshots that hold it, with alt = raw / altitudeScale |
| `Globe.AllHoursPaths` | src/components/dashboard/Globe.tsx:121-147 | the all-hours loop over ids `0 .. constellation[0].data.length - 1` (re-sorting a copy ascending for each id) returns the list of non-empty paths |
| `Globe.TrajectoryPath` | src/components/dashboard/Globe.tsx:118-168 | the memo's three branches compute the trajectory specification |
| `Globe.TrajectorySpec` | src/components/dashboard/Globe.tsx:118-168 | no selection and all-hours mode off gives null; a non-null result is a non-empty list of non-empty paths (null stands for "nothing to draw"); with a selection it is a single path |
| `Globe.PathThroughSorted` | src/components/dashboard/Globe.tsx:128-139 | vertex k of a path comes from the k-th sorted snapshot holding the balloon; those snapshots are the ones of the constellation that hold it, each as often as in the constellation (same multiset, so one vertex per such snapshot), in the sort's hour order |
| `Globe.FocusedTrajectory` | src/components/dashboard/Globe.tsx:149-165 | with a selection, all-hours mode is ignored; the result is one path through the constellation sorted by descending hour; it is null exactly when no snapshot holds the balloon |
| `Globe.AllHoursTrajectory` | src/components/dashboard/Globe.tsx:121-147 | all-hours mode without selection: null exactly when no path remains; otherwise path k is the non-empty ascending-hour path of the k-th kept id, the kept ids run strictly upwards and are exactly the ids below the first snapshot's length with a non-empty path; a non-empty first snapshot yields a result |
| `Globe.TwoHourScenario` | src/components/dashboard/Globe.tsx:149-165 | hours 0 and 1 with two balloons each, balloon 1 selected: one path through hour 1 and then hour 0 |
| `Globe.GlobeView.constructor` | src/components/dashboard/Globe.tsx:35-44 | initial settings: no selection, altitude scale 500, hour 0, all-hours off |
| `Globe.GlobeView.HandleBalloonClick` | src/components/dashboard/Globe.tsx:170-173 | clicking a marker selects its id and changes no other setting; the altitude scale stays positive |
| `Globe.GlobeView.HandleGlobeClick` | src/components/dashboard/Globe.tsx:175-177 | clicking the globe clears the selection and changes no other setting; the altitude scale stays positive |
| `Globe.GlobeView.Overlays` | src/components/dashboard/Globe.tsx:71-168 | from a view with a positive altitude scale, the three memos computed together give the visible markers of the current hour, the unfocused or focused arcs, and the trajectory specification, all from the view's own settings |
| `ConstellationData.DecimalRoundTrip` | src/hooks/useConstellationData.ts:22 | `String(n)` is all decimal digits and reads back as `n` |
| `ConstellationData.DecimalString` | src/hooks/useConstellationData.ts:22 | `String(n)` has at least one character, exactly one for n below 10, at most two below 100, and no leading zero for n > 0 |
| `ConstellationData.PadStart` | src/hooks/useConstellationData.ts:22 | `padStart` leaves a string at least `width` long alone; otherwise it fills on the left up to `width`, and the string is the suffix |
| `ConstellationData.HourLabel` | src/hooks/useConstellationData.ts:22 | the hour label is decimal digits whose value is i, exactly two of them for every i below 100 (so for all 24 hours) |
| `ConstellationData.RequestPathsDistinct` | src/hooks/useConstellationData.ts:21-26 | the 24 requests ask for 24 different `/treasure/HH.json` files |
| `ConstellationData.AwaitAll` | src/hooks/useConstellationData.ts:21-35 | the join fails if and only if some request failed; otherwise entry i is `{hour: i, data: response i}` |
| `ConstellationData.IndexedHoursFind` | src/hooks/useConstellationData.ts:68 | in a constellation whose i-th snapshot is hour i, hour h is found at index h and no other index has that hour |
| `ConstellationData.TrajectoryAgrees` | src/hooks/useConstellationData.ts:61-64 | the defined positions of a trajectory are exactly the positions the globe's arcs and paths use, in constellation order |
| `ConstellationData.ConstellationState.constructor` | src/hooks/useConstellationData.ts:12-16 | initial state: empty constellation, loading, no lastFetch |
| `ConstellationData.ConstellationState.StartFetch` | src/hooks/useConstellationData.ts:19 | starting a fetch sets loading and leaves constellation and lastFetch unchanged |
| `ConstellationData.ConstellationState.CompleteFetch` | src/hooks/useConstellationData.ts:34-51 | all 24 succeeded: the constellation is the 24 snapshots with hour = index 0..23, lastFetch = now; any failure: constellation and lastFetch unchanged; loading false either way |
| `ConstellationData.ConstellationState.FetchAllData` | src/hooks/useConstellationData.ts:18-52 | the whole refresh has the same outcome as `CompleteFetch` |
| `ConstellationData.ConstellationState.GetBalloonTrajectory` | src/hooks/useConstellationData.ts:58-65 | one entry per snapshot, in order, with that snapshot's hour and position `data[id]`, absent exactly when id is out of range; the defined positions agree with `Snapshots.Positions` |
| `ConstellationData.ConstellationState.GetCurrentPositions` | src/hooks/useConstellationData.ts:67-69 | absent exactly when no snapshot has hour 0; otherwise the data of the first hour-0 snapshot |
| `ConstellationData.AfterSuccessfulFetch` | src/hooks/useConstellationData.ts:37-43 | after a successful refresh the current positions are response "00", and every trajectory lists the hours 0..23 in order |
| `WindData.FindComponent` | src/components/Wind/useWindData.ts:31-36 | absent exactly when no grid has the label; otherwise the first grid with exactly that label |
| `WindData.JsRem` | src/components/Wind/useWindData.ts:66 | JavaScript's `%`: the dividend minus the remainder is a whole multiple of the divisor; with a positive divisor the remainder has the sign of the dividend and is smaller than the divisor in size |
| `WindData.NormalizeLng` | src/components/Wind/useWindData.ts:66 | the normalised longitude is lng shifted by whole turns of 360; for lng ≥ -360 it lies in [0, 360), equal to lng on [0, 360) and to lng + 360 on [-360, 0); for lng < -360 the truncating `%` leaves it in (-360, 0] |
| `WindData.NormalizeLngPeriodic` | src/components/Wind/useWindData.ts:66 | lng and lng + 360 normalise alike for lng ≥ -360 |
| `WindData.FlatIndexBounds` | src/components/Wind/useWindData.ts:74 | a column and row inside the grid give `y*nx + x` in [0, nx*ny), which divides back into row y and column x |
| `WindData.CellIndex` | src/components/Wind/useWindData.ts:66-74 | null exactly when x = floor((normLng - lo1)/dx) is outside [0, nx) or y = floor((la1 - lat)/dy) is outside [0, ny); otherwise an index below nx*ny that decodes to (y, x) |
| `WindData.Sample` | src/components/Wind/useWindData.ts:63-79 | both components are read at `y*nx + x` of the u header; null exactly outside the u grid; both defined when each grid holds nx*ny values |
| `WindData.SampleIgnoresVHeader` | src/components/Wind/useWindData.ts:63-64 | the v grid's header never affects the sample |
| `WindData.SampleLongitudeWrap` | src/components/Wind/useWindData.ts:66 | for lng ≥ -360, lng and lng + 360 sample the same cell (so -170 and 190 agree) |
| `WindData.WindState.constructor` | src/components/Wind/useWindData.ts:23-24 | initially no wind data, loading |
| `WindData.WindState.LoadWindData` | src/components/Wind/useWindData.ts:26-51 | with both labels present, the wind data is the first u and first v grid; otherwise it keeps its previous value; loading is false afterwards either way |
| `WindData.WindState.GetWindAt` | src/components/Wind/useWindData.ts:57-80 | null while no wind data is loaded; otherwise the cell sample of both grids |

## Left out

- Rendering is not modelled: Three.js meshes, tooltip HTML and `toFixed`
  formatting, colours, auto-rotate and window resize
  (src/components/dashboard/Globe.tsx:46-69, 179-316). It draws what the model
  computes and decides nothing.
- `src/components/dashboard/GlobeControls.tsx`,
  `src/components/globe/GlobeControls.tsx` and
  `src/components/dashboard/Globe.styles.ts` are not part of this model. They
  are widgets and CSS. The hour, all-hours and altitude-scale settings that
  these widgets set are inputs of the overlay functions.
- The altitude slider's range 100..1000
  (src/components/dashboard/GlobeControls.tsx:74-82) appears only as the
  `altitudeScale > 0` precondition of the overlay members and as the invariant
  `GlobeView.Valid` that the click handlers keep and `GlobeView.Overlays` relies on.
- `src/components/dashboard/Dashboard.tsx` and `DashboardContainer.tsx` are not
  part of this model; they only pass props along and log. The wind-vector
  overlay and its near-zero filter belong to files that are not part of this
  model either.
- Network transport is not modelled: `axios.get`, the development or production
  base URL, and `Promise.all` scheduling. The 24 outcomes are an input.
- Overlapping `refetch` calls race with each other. That is concurrency and is
  not modelled.
- Console logging is not modelled.
- The value of `new Date()` is not modelled; it is the opaque input `now`.
- `ConstellationData.ConstellationState.CompleteFetch`: `results.sort` works in
  place on a local array. It is modelled as the pure `SortByHour` on the
  sequence, because no one else holds that array.
- `ConstellationData.ConstellationState.CompleteFetch`: `Dashboard.types.ts`
  declares a second `ConstellationState` interface with the same fields as the
  hook's own record. Both are modelled by this one class.
- Loading the static `wind_data.json` asset is not modelled: the grid list is
  an input. The `catch` branch of `loadWindData` only fires on a grid without
  a header, which the typed grid list cannot express.
- `WindData.WindState.GetWindAt`: IEEE-754 behaviour is not modelled. Rounding
  of `/`, `%` and `Math.floor` is exact, and NaN coordinates are not
  represented. A zero `dx` or `dy` (which JavaScript turns into Infinity or
  NaN) is excluded by a precondition.
- `Globe.GlobeView.HandleBalloonClick`: the clicked object is taken to be a
  marker. Without that, `selectedBalloonId` could be any number or null; in the
  model it is an optional natural number, because it is only ever set from a
  marker id.
