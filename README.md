# Interactive weather dashboard: drawing, rule editing, timeline and centroid

A Dafny model of the logic inside the dashboard's React components. The user draws polygons on a
map, names each one after a dataset, edits a list of threshold rules, and picks an instant or a
range on a timeline. `getCentroid`, the vertex mean of a polygon, is defined beside the weather
fetch in utils/fetchWeatherData.ts; no component covered here calls either of them.

The model has four parts:

- **Polygon drawing** (`MapDrawing`, from `components/LeafletMap.tsx`). The component's four
  state fields are `drawing`, `tempPolygon`, `polygons` and `datasetColors`. They are fields of the
  class `LeafletMap`. Its methods are the map click, the marker click, `finishPolygon`,
  `deletePolygon` and the drawing toggle. Each method is proved against a transition function on
  the value `DrawState` (`Clicked`, `MarkerClicked`, `Finished`, `Deleted`, `ToggledDrawing`).
  The lemmas about these functions state the guards: the 12-point cap, the closing tolerance
  0.0001, the 3-point minimum, the trimmed-name check and the per-dataset colour table. They also
  prove the invariant `Inv`.
- **Threshold-rule editor** (`Sidebar`, from `components/Sidebar.tsx`). The three list edits are
  pure functions (`AddedRules`, `UpdatedRules`, `DeletedRules`). The class `ThresholdSidebar` owns
  the `rules` field and overwrites it with those functions.
- **Timeline slider** (`Timeline`, from `components/TimelineSlider.tsx`). It covers the candidate
  instants, the first-match index lookup with its fallbacks, and the mapping from slider positions
  back to dates. The class `TimelineSlider` holds the mode, the dates and the candidates, which
  are rebuilt only when the resolution changes.
- **Centroid** (`Geometry`, from `utils/fetchWeatherData.ts`). `GetCentroid` keeps the source's
  two running sums and is proved equal to the vertex mean `Centroid`. Lemmas give the mean's
  properties: order independence, bounds and translation.

Shared pieces: `Types` holds the value shapes of `types/types.ts`. `Lists.Without` is the
`filter((_, i) => i !== index)` used by both delete handlers. `Text.Trim` is JavaScript's
`trim`. `Colors` builds the colour string for a new dataset, exactly as the component writes it
(`ColorAsWritten`), and also holds the six-digit colour evidently intended (see "## Findings").

Modelling choices:

- Coordinates and thresholds are `real`, so arithmetic is exact.
- Instants are integers counting milliseconds. An hour is 3 600 000 ms and a day is 24 hours.
- The calendar key that `date-fns` `format` gives an instant is a parameter `key` of the timeline
  functions.
- The prompt's answer is an `Option<string>` parameter, `None` when the prompt is dismissed.
- The random colour is a parameter `draw`: the integer `Math.floor(Math.random() * 16777215)`.

## Model

| member | source | states |
|---|---|---|
| `MapDrawing.LeafletMap.constructor` | components/LeafletMap.tsx:41-45 | the component starts not drawing, with no vertices, no polygons and the three preset dataset colours (lines 93-97), and the invariant holds |
| `MapDrawing.LeafletMap.HandleMapClick` | components/LeafletMap.tsx:56-74 | the new state is `Clicked` of the old one and the invariant is kept |
| `MapDrawing.LeafletMap.FinishPolygon` | components/LeafletMap.tsx:99-121 | the new state is `Finished` of the old one and the invariant is kept; a new dataset gets the unpadded colour `ColorAsWritten(draw)` |
| `MapDrawing.LeafletMap.ClickMarker` | components/LeafletMap.tsx:174-176 | a click on a vertex marker finishes the polygon only for the first marker with at least 3 vertices; it does not check `drawing` |
| `MapDrawing.LeafletMap.DeletePolygon` | components/LeafletMap.tsx:124-126 | the new state is `Deleted` of the old one and the invariant is kept |
| `MapDrawing.LeafletMap.ToggleDrawing` | components/LeafletMap.tsx:185 | only `drawing` flips; the vertices placed so far are kept when drawing is cancelled |
| `MapDrawing.Clicked` | components/LeafletMap.tsx:56-74 | the map-click transition: a click while not drawing changes nothing, and the 12-point cap on the temporary vertices is kept |
| `MapDrawing.Finished` | components/LeafletMap.tsx:99-121 | the finish transition: too few vertices or no usable name change nothing; otherwise exactly one polygon with the temporary vertices is appended after the old ones, the vertices are cleared, drawing stops and no colour entry is lost |
| `MapDrawing.MarkerClicked` | components/LeafletMap.tsx:174-176 | the marker-click transition: only marker 0 with at least 3 vertices acts, and then it finishes the polygon |
| `MapDrawing.Deleted` | components/LeafletMap.tsx:124-126 | the delete transition: one polygon fewer for an index inside the list, as many otherwise; the other fields are unchanged |
| `MapDrawing.ToggledDrawing` | components/LeafletMap.tsx:185 | the toggle transition: `drawing` flips and the other fields are unchanged |
| `MapDrawing.InitialStateInv` | components/LeafletMap.tsx:93-97 | the initial state satisfies the invariant |
| `MapDrawing.DatasetName` | components/LeafletMap.tsx:105-109 | the name is refused exactly when the prompt is dismissed or its answer is white space only; otherwise it is the trimmed answer, non-empty and already trimmed |
| `MapDrawing.ClickWhileIdle` | components/LeafletMap.tsx:33 | a click while not drawing changes nothing |
| `MapDrawing.ClosingClickFinishes` | components/LeafletMap.tsx:59-66 | a click within 0.0001 of the first vertex on both axes, with at least 3 vertices, finishes the polygon and appends no vertex |
| `MapDrawing.ClickOnFullPolygon` | components/LeafletMap.tsx:68-71 | any other click with 12 vertices already placed changes nothing |
| `MapDrawing.ClickAppends` | components/LeafletMap.tsx:73 | any other click while drawing appends exactly the clicked point, keeps the earlier vertices and changes no other field |
| `MapDrawing.FinishRefused` | components/LeafletMap.tsx:100-109 | with fewer than 3 vertices, a dismissed prompt or a blank answer, finishing changes nothing |
| `MapDrawing.FinishAppends` | components/LeafletMap.tsx:118-120 | a successful finish appends exactly one polygon (the vertices, the trimmed name, its colour), clears the vertices and stops drawing |
| `MapDrawing.FinishColors` | components/LeafletMap.tsx:111-116 | a known name reuses its stored colour and leaves the table unchanged; a new name gets the colour `"#"` and the unpadded base-16 digits of the draw (`ColorAsWritten`), as exactly one new entry, other entries unchanged |
| `MapDrawing.ColorsAfterExtends` | components/LeafletMap.tsx:112-116 | the colour table after a finish keeps every old entry, has no empty colour, and maps the name to the colour the polygon got |
| `MapDrawing.DeleteRemoves` | components/LeafletMap.tsx:124-126 | deleting removes exactly the polygon at the index, keeps the rest in order, and is a no-op for an index outside the list |
| `MapDrawing.FinishedInv` | components/LeafletMap.tsx:99-121 | finishing keeps the invariant: 3 to 12 vertices, a trimmed non-empty name and the dataset's table colour for every polygon |
| `MapDrawing.DeletedInv` | components/LeafletMap.tsx:124-126 | deleting keeps the invariant |
| `MapDrawing.TransitionsKeepInv` | components/LeafletMap.tsx:56-74 | every transition keeps the invariant, so the temporary polygon never exceeds 12 points |
| `MapDrawing.SameDatasetSameColor` | components/LeafletMap.tsx:112-118 | under the invariant, polygons with the same dataset name have the same colour |
| `Lists.Without` | components/Sidebar.tsx:22 | the filter by position shortens the list by one for an index inside it and keeps its length otherwise |
| `Lists.WithoutIsSplice` | components/LeafletMap.tsx:125 | the filter by position splices out exactly that element; an index outside the list changes nothing |
| `Lists.WithoutKeepsOrder` | components/Sidebar.tsx:22 | after the filter, elements before the index stay in place and later ones move down by one |
| `Text.Trim` | components/LeafletMap.tsx:105 | `.trim()`: the result is no longer than the answer and has no white space at either end |
| `Text.TrimIsSlice` | components/LeafletMap.tsx:105 | the trimmed name is a slice of the answer with only white space cut from either end |
| `Text.TrimEmptyIffBlank` | components/LeafletMap.tsx:106 | an answer trims to the empty string exactly when it is all white space |
| `Text.TrimFixedPoints` | components/LeafletMap.tsx:105 | trimming leaves a string unchanged exactly when neither end is white space |
| `Text.TrimIdempotent` | components/LeafletMap.tsx:105 | trimming twice is trimming once |
| `Colors.ColorAsWritten` | components/LeafletMap.tsx:114 | the colour as the source builds it: `#` followed by base-16 digits, without padding, that parse back to the draw |
| `Colors.ToHexRoundTrip` | components/LeafletMap.tsx:114 | the source's base-16 spelling parses back to the draw |
| `Colors.ShortDrawsGiveShortColors` | components/LeafletMap.tsx:114 | as written, every draw below 0x100000 yields a colour shorter than seven characters |
| `Colors.ShortColorExample` | components/LeafletMap.tsx:114 | as written, the draw 167 yields the colour "#a7" |
| `Colors.PaddedHexRoundTrip` | components/LeafletMap.tsx:114 | the zero-padded spelling parses back to the number |
| `Colors.ToHexIsPaddedWhenFull` | components/LeafletMap.tsx:114 | when a number needs all w digits, the source's spelling equals the padded one |
| `Colors.RandomColorWellFormed` | components/LeafletMap.tsx:114 | every draw yields "#" and six base-16 digits that spell the draw |
| `Colors.RandomColorAgreesOnFullDraws` | components/LeafletMap.tsx:114 | for draws of six digits the intended colour is the source's colour |
| `Sidebar.Patched` | components/Sidebar.tsx:18 | the spread `{ ...r, ...updated }` takes each field from the patch when present and keeps the old value otherwise |
| `Sidebar.AddedRules` | components/Sidebar.tsx:13-15 | adding appends exactly the rule red, "<", 0 at the end and keeps the earlier rules |
| `Sidebar.UpdatedRules` | components/Sidebar.tsx:17-19 | an update keeps the length and every rule except the one at the index, which is patched; an index outside the list changes nothing |
| `Sidebar.DeletedRules` | components/Sidebar.tsx:22 | deleting by position leaves one rule fewer for an index inside the list and as many otherwise |
| `Sidebar.DeleteRuleSplices` | components/Sidebar.tsx:21-23 | deleting at a valid index shortens the list by one and keeps the other rules in order; any other index changes nothing |
| `Sidebar.EditsKeepOperators` | components/Sidebar.tsx:6 | adding, updating with a valid operator and deleting keep every operator among the five |
| `Sidebar.ThresholdSidebar.constructor` | components/Sidebar.tsx:11 | the editor starts with no rules |
| `Sidebar.ThresholdSidebar.AddRule` | components/Sidebar.tsx:13-15 | `rules` becomes `AddedRules` of the old list, operators stay valid |
| `Sidebar.ThresholdSidebar.UpdateRule` | components/Sidebar.tsx:17-19 | `rules` becomes `UpdatedRules` of the old list, operators stay valid |
| `Sidebar.ThresholdSidebar.DeleteRule` | components/Sidebar.tsx:21-23 | `rules` becomes `DeletedRules` of the old list, operators stay valid |
| `Timeline.Candidates` | components/TimelineSlider.tsx:34-48 | the candidate instants: 720 hourly or 30 daily, with the current time at position 360 or 15 |
| `Timeline.CandidateCounts` | components/TimelineSlider.tsx:36-42 | hourly resolution gives 720 candidates and daily gives 30 |
| `Timeline.CandidatesLayout` | components/TimelineSlider.tsx:34-48 | the candidates start 15 days before now, include now, are one step apart and strictly increase |
| `Timeline.FindIndex` | components/TimelineSlider.tsx:53-54 | the lookup returns the lowest position in the target's bucket, or -1 exactly when no candidate shares it |
| `Timeline.SliderValue` | components/TimelineSlider.tsx:51-64 | single mode gives one position and range mode two, each within the candidates; each is the first match of its date, else the last position for the end and 0 for the start |
| `Timeline.ValueShape` | components/TimelineSlider.tsx:117-123 | the positions shown are ones the slider can report back |
| `Timeline.Selection` | components/TimelineSlider.tsx:67-78 | single mode sets start and end to the same candidate; range mode sets them to the candidates at the two positions |
| `Timeline.SelectionRoundTrip` | components/TimelineSlider.tsx:51-78 | moving the slider and mapping back lands at or before each chosen position within the same bucket, and exactly on it when buckets are distinct |
| `Timeline.StepBucketsDistinct` | components/TimelineSlider.tsx:36-45 | with whole hours or days of any fixed UTC offset as the bucket, no two candidates share one |
| `Timeline.Toggled` | components/TimelineSlider.tsx:103 | the toggle always changes the mode |
| `Timeline.ToggleTwice` | components/TimelineSlider.tsx:103 | toggling twice restores the mode |
| `Timeline.TimelineSlider.constructor` | components/TimelineSlider.tsx:31-48 | the slider starts in single mode with the candidates built from the current time |
| `Timeline.TimelineSlider.SetResolution` | components/TimelineSlider.tsx:48 | the candidates are rebuilt from the current time only when the resolution changes |
| `Timeline.TimelineSlider.ToggleMode` | components/TimelineSlider.tsx:103 | only the mode changes, to the other one |
| `Timeline.TimelineSlider.HandleValueChange` | components/TimelineSlider.tsx:67-78 | start and end become `Selection` of the positions, equal in single mode; nothing else changes |
| `Geometry.GetCentroid` | utils/fetchWeatherData.ts:15-24 | the loop returns the vertex mean: each coordinate times the vertex count is that coordinate's sum; the vertex list must be non-empty |
| `Geometry.CentroidOfOnePoint` | utils/fetchWeatherData.ts:15-24 | the centroid of one vertex is that vertex |
| `Geometry.CentroidPermutation` | utils/fetchWeatherData.ts:19-22 | reordering the vertices does not change the centroid |
| `Geometry.SumPermutation` | utils/fetchWeatherData.ts:19-22 | reordering the vertices does not change either running sum |
| `Geometry.CentroidWithin` | utils/fetchWeatherData.ts:17-23 | if every vertex lies within bounds on an axis, so does the centroid |
| `Geometry.CentroidBetweenExtremes` | utils/fetchWeatherData.ts:17-23 | the centroid lies between the least and greatest vertex coordinate on each axis |
| `Geometry.CentroidTranslated` | utils/fetchWeatherData.ts:17-23 | moving every vertex by an offset moves the centroid by that offset |

## Left out

- The weather fetch `fetchWeatherData` (utils/fetchWeatherData.ts:4-12) is network I/O with fixed dates and an untyped result. It takes no centroid, and no file covered here calls it or `getCentroid`.
- Saving polygons to `localStorage` and restoring them (components/LeafletMap.tsx:47-54) is I/O and JSON handling. `datasetColors` is not saved, so restored polygons could name datasets missing from the colour table and break `Inv` and `MapDrawing.SameDatasetSameColor`. On mount, though, the save effect (lines 47-49) runs before the restore effect (lines 51-54) and overwrites the stored list with the empty one, so nothing is restored. The model starts from the empty list, and its invariant holds only because of this effect order.
- `window.prompt` and `alert` are user interface. The prompt's answer is a parameter; alerts have no effect on state.
- `Math.random` is a parameter: the draw it yields.
- Leaflet, the Radix slider and tooltip, icons and all rendering have no logic to verify.
- `date-fns` `format` and JavaScript `Date` arithmetic are left out. Calendar buckets are the parameter `key`. Days are 24 hours, so daylight-saving shifts are not modelled; a time zone enters only as the fixed UTC offset of `Timeline.StepBucketsDistinct`.
- Floating point is not modelled: the 0.0001 tolerance, the sums and the divisions are exact reals.
- `parseFloat` returning NaN (components/Sidebar.tsx:56) is float parsing.
- Each handler is one atomic transition on the current state. React's batched updates and stale closures are not modelled.
- The `weatherData` field of `PolygonData` (types/types.ts:11) is never written by these components.
- The slider receives `activeTimeIndex` and `setActiveTimeIndex` (components/TimelineSlider.tsx:27-28) and never uses them.
- Threshold classification, nearest-timestamp lookup, a weather cache and debounced refetching are not modelled. No file of the repository covered here implements them.
- app/page.tsx, app/layout.tsx, components/InteractiveMap.tsx and store/useDashboardStore.ts only wire components together.
- `MapDrawing.StoredColor`: looks colours up in a Dafny map. Keys inherited from `Object.prototype`, such as "toString", are not modelled.
- `Geometry.GetCentroid`: requires a non-empty vertex list. The source divides by zero on an empty list and yields NaN.
- `Timeline.TimelineSlider.HandleValueChange`: requires positions inside the candidates, one per thumb. The slider widget guarantees this through `min`, `max` and `step`.
- `Sidebar.ThresholdSidebar.UpdateRule`: requires a patch operator to be one of the five. The operator select offers only those.

## Findings

| source | as written | input that shows it | evidently intended | confidence | as-written member | corrected member |
|---|---|---|---|---|---|---|
| components/LeafletMap.tsx:114 | `"#" + draw.toString(16)` with no zero padding | draw 167 gives "#a7"; every draw below 0x100000 (one in sixteen) gives fewer than six digits, which CSS does not read as the drawn colour | "#" followed by six base-16 digits | not executed; high | `Colors.ShortColorExample` | `Colors.RandomColorWellFormed` |

The map model keeps the colour as written: `MapDrawing.ColorFor` and `MapDrawing.LeafletMap.FinishPolygon` use `Colors.ColorAsWritten`, so their contracts describe what the component actually stores. `Colors.RandomColor` is the corrected colour, with its properties proved beside it.
