# GeoLomas front end: state logic of three pages, in Dafny

GeoLomas is a web dashboard for maps, satellite-derived layers and weather-station
telemetry. Almost all of its front end is presentation. This project models the
three pieces of it that hold sequential logic. Each piece is one module.

- `StationsDashboardPage` (pages/stations-dashboard.js) models the stations
  dashboard as a class whose fields are the page state: `loading`, `station`,
  `stations`, `mode`, `realtimeParams`, `historicParams`, `aggregationFunc`,
  `groupingInterval`, and the `rtInterval` timer handle. Its methods are the
  page's lifecycle step and its handlers. Each method states the page's whole
  new state as an update of the old state record (`State()`), so every field
  it leaves alone is stated unchanged. `Array.prototype.find` is a
  linear-search method. It is proved equal to a recursive reference function,
  and that function's search semantics are proved separately. A ghost
  predicate `Valid()` is kept by every method: realtime mode always has a
  captured time, a timer handle is held only in realtime mode, and the page
  stops loading only once it has a station list. The render step is modelled
  as the list of plot queries the page hands to its plots.
- `RasterList` (components/user/RasterListContent.js) models the raster
  listing. The rows are an `array` of records. One loop annotates them in
  place with `type` (the field `kind`) and `periodReadeable`. An insertion
  sort then reorders them in place using the comparator exactly as written.
  The result is the same array, stored as `rows`. The module also models the
  download path built from `typeBasePaths`.
- `LayersPage` (pages/layers.js) models the layer viewer. Pure functions turn
  the layer metadata into Leaflet bounds, the `maxZoom` (default 18), a raster
  or vector tile layer, and the area polygon. The logout decision on a failed
  fetch is a predicate. A class holds `layer`, `bounds` and `viewport`, with
  the invariant that `layer` and `bounds` are set together.
- `Js` holds the JavaScript semantics the pages depend on:
  - string truthiness;
  - `Number(s)` for decimal integers;
  - `${n}` for integers, with the round trip `Number(`${n}`) === n`;
  - lexicographic string `<`, proved a strict total order;
  - `>` when one operand is `undefined`.

Behaviour the code does not have, though a reader might expect it:

- A query id that matches no station selects no station (`undefined`). There
  is no fallback to the first station (`AbsentQueryIdSelectsNothing`).
- Choosing an absent station sets `station` to none. The handler is not a
  no-op.
- `setHistoricMode` sets the `rtInterval` handle to null but never clears the
  timer. `setRealtimeMode` overwrites any earlier handle. So a refresh timer,
  once started, is never cancelled, and several can run at once.
- After a failed station fetch, `stations` stays undefined, not empty. The
  mount handler then throws before it picks a station, so `loading` stays
  true.

## Model

| member | source | states |
|---|---|---|
| `StationsDashboardPage.StationsDashboard.constructor` | pages/stations-dashboard.js:103-113 | initial state: historic mode, last time "1-year", historic window (2011-01-01T00:00, 2012-01-01T00:00), "avg", "month", loading, no station, no station list, no timer handle |
| `StationsDashboardPage.StationsDashboard.FetchStations` | pages/stations-dashboard.js:159-167 | a successful response replaces `stations` and nothing else; a failure is swallowed and changes nothing |
| `StationsDashboardPage.StationsDashboard.ComponentDidMount` | pages/stations-dashboard.js:119-137 | after the fetch: station is `InitialStation(query, stations)`, loading false, historic mode, no handle, all else kept; with no list ever fetched the handler throws and the state is unchanged |
| `StationsDashboardPage.FirstWithId` | pages/stations-dashboard.js:180 | `find` with strict equality on the id: a result is a station of the list with the target id |
| `StationsDashboardPage.InitialStation` | pages/stations-dashboard.js:126-128 | the station the mount picks: a truthy query id selects `find` of `Number(query.id)`, otherwise `stations[0]`; a result is always a listed station, and an empty list gives none |
| `StationsDashboardPage.FirstWithIdSpec` | pages/stations-dashboard.js:180 | find semantics: no result exactly when no station has the id; otherwise a station with the id that no earlier station has |
| `StationsDashboardPage.Find` | pages/stations-dashboard.js:127 | the linear search returns exactly the first station with the target id, or none |
| `StationsDashboardPage.InitialStationNoFallback` | pages/stations-dashboard.js:126-128 | a truthy query id that no station has gives no station, even when the list is non-empty (no fallback to `stations[0]`) |
| `StationsDashboardPage.InitialStationByQuery` | pages/stations-dashboard.js:126-128 | a query holding a station's id in decimal selects the first station with that id |
| `StationsDashboardPage.InitialStationAbsentId` | pages/stations-dashboard.js:126-128 | a query holding in decimal an id no station has selects no station |
| `StationsDashboardPage.QueryTwoSelectsSecond` | pages/stations-dashboard.js:126-128 | on [1 "A", 2 "B"], id "2" picks station 2 |
| `StationsDashboardPage.AbsentQueryIdSelectsNothing` | pages/stations-dashboard.js:126-128 | on [1 "A", 2 "B"], id "99" picks nothing |
| `StationsDashboardPage.StationsDashboard.UpdateNow` | pages/stations-dashboard.js:149-157 | realtime mode and `now` captured; `lastTime`, historic parameters, aggregation, grouping, station and handle unchanged |
| `StationsDashboardPage.StationsDashboard.SetRealtimeMode` | pages/stations-dashboard.js:139-142 | the effect of `updateNow`, then the handle overwritten with the new timer's handle |
| `StationsDashboardPage.StationsDashboard.SetHistoricMode` | pages/stations-dashboard.js:144-147 | historic mode and the handle dropped; every other field, including the realtime parameters, unchanged |
| `StationsDashboardPage.StationsDashboard.HandleStationsSelectChange` | pages/stations-dashboard.js:177-182 | station becomes the first with the chosen id, or none; no other field changes; without a list the handler throws and nothing changes |
| `StationsDashboardPage.StrictTarget` | pages/stations-dashboard.js:179-180 | `st.id === value` can hold only for a number value, and then for that number |
| `StationsDashboardPage.StringSelectionSelectsNothing` | pages/stations-dashboard.js:179-180 | a select value delivered as a string matches no station, so the handler clears the selection |
| `StationsDashboardPage.ConsistentPlots` | pages/stations-dashboard.js:224-296 | under the invariant every handler keeps, a page showing plots has a station list, and a realtime plot always gets a captured current time |
| `StationsDashboardPage.StationsDashboard.HandleTimeRangeLastTimeSelectChange` | pages/stations-dashboard.js:192-199 | only `realtimeParams.lastTime` changes; `now` and historic parameters are kept |
| `StationsDashboardPage.StationsDashboard.HandleAggregationFunctionSelectChange` | pages/stations-dashboard.js:201-203 | only `aggregationFunc` changes |
| `StationsDashboardPage.StationsDashboard.HandleGroupingIntervalSelectChange` | pages/stations-dashboard.js:205-207 | only `groupingInterval` changes |
| `StationsDashboardPage.ActiveTimeRange` | pages/stations-dashboard.js:224-225 | the plots get the realtime parameters exactly in realtime mode, the historic ones otherwise |
| `StationsDashboardPage.PlotQueries` | pages/stations-dashboard.js:279-296 | seven plots, one per parameter in display order, exactly when not loading and a station is held; each carries the station, mode, active time range, grouping and aggregation |
| `StationsDashboardPage.InactiveParamsIgnored` | pages/stations-dashboard.js:224-225 | the inactive mode's parameters never affect any plot query |
| `StationsDashboardPage.StationsDashboard.Plots` | pages/stations-dashboard.js:279 | plots are produced exactly when `!loading && station`, each for the held station and the active time range |
| `Js.NumberOf` | pages/stations-dashboard.js:127 | `Number(query.id)`: trim white space, then read an optionally signed decimal integer; the empty string reads as 0, anything else as NaN (`None`) |
| `Js.IntToString` | components/user/RasterListContent.js:156 | `${id}` for an integer: a minus sign for negatives and the shortest decimal digits |
| `Js.IntToStringRoundTrip` | pages/stations-dashboard.js:127 | `Number` reads back the decimal rendering of every integer |
| `Js.NumberOfDigits` | pages/stations-dashboard.js:127 | `Number` of a decimal digit string is its value |
| `Js.NumberOfNegative` | pages/stations-dashboard.js:127 | `Number` of a minus sign and digits is the negated value |
| `RasterList.Annotate` | components/user/RasterListContent.js:134-139 | the annotated row has type "eo-sensors" and `periodReadeable` = `date_from + " - " + date_to` of its own period, and every other field as before |
| `RasterList.AnnotateAll` | components/user/RasterListContent.js:134-139 | the listing after the loop: the same length, each row annotated |
| `RasterList.AnnotateRows` | components/user/RasterListContent.js:134-139 | in place, the array keeps its length and every row becomes its annotated self |
| `RasterList.AnnotateIdempotent` | components/user/RasterListContent.js:134-139 | annotating an annotated row changes nothing |
| `RasterList.Compare` | components/user/RasterListContent.js:141-149 | the comparator as written, first test against `undefined` included; it returns -1, 0 or 1, and 1 only when b starts later |
| `RasterList.IntendedCompare` | components/user/RasterListContent.js:141-149 | the comparator with `b` in the first test; it returns -1, 0 or 1, and 0 only on starts neither before the other |
| `Js.StringLess` | components/user/RasterListContent.js:142-145 | string `<`: lexicographic on characters, a proper prefix first |
| `Js.GreaterThan` | components/user/RasterListContent.js:142-145 | `x > y` on two strings is `y < x`, and false once either side is `undefined` |
| `RasterList.CompareValues` | components/user/RasterListContent.js:141-149 | the comparator never returns -1; it returns 1 exactly when b's `date_from` is later than a's, else 0 |
| `Js.GreaterThanUndefined` | components/user/RasterListContent.js:142 | a comparison with `undefined` on either side is false |
| `RasterList.CompareInconsistent` | components/user/RasterListContent.js:142-144 | when a starts later than b, compare(a, b) is 0 while compare(b, a) is 1: the comparator is inconsistent |
| `RasterList.IntendedCompareValues` | components/user/RasterListContent.js:142-148 | the intended comparator returns -1, 1 or 0 exactly for a later, an earlier or an equal start of a |
| `RasterList.IntendedCompareConsistent` | components/user/RasterListContent.js:142-148 | the intended comparator is antisymmetric, is zero exactly on equal starts, and its "not after" relation is transitive |
| `RasterList.CompareAgreesWithIntended` | components/user/RasterListContent.js:141-149 | the written and the intended comparator agree on whether a pair must be exchanged |
| `Js.StringLessTotal` | components/user/RasterListContent.js:145 | two distinct strings are ordered one way or the other |
| `Js.StringLessTransitive` | components/user/RasterListContent.js:145 | string `<` is transitive |
| `Js.StringLessAsymmetric` | components/user/RasterListContent.js:145 | string `<` never holds both ways |
| `Js.StringLessIrreflexive` | components/user/RasterListContent.js:145 | no string is less than itself |
| `Js.NotLessTransitive` | components/user/RasterListContent.js:145 | "not less than" on strings is transitive |
| `RasterList.InsertingStep` | components/user/RasterListContent.js:141-149 | exchanging a pair the comparator rejects keeps the insertion pass's invariant |
| `RasterList.InsertingDone` | components/user/RasterListContent.js:141-149 | when the moving row stops, the prefix has no adjacent inversion |
| `RasterList.InsertLeft` | components/user/RasterListContent.js:141-149 | one insertion pass extends the inversion-free prefix by one row and permutes the array |
| `RasterList.AdjacentSortedIsSorted` | components/user/RasterListContent.js:141-149 | no adjacent inversion implies no inversion at all |
| `RasterList.SortRows` | components/user/RasterListContent.js:141-149 | the in-place sort leaves a permutation (same multiset) of its input with no pair the comparator would exchange |
| `RasterList.SortedMeansLatestFirst` | components/user/RasterListContent.js:141-149 | a sorted listing runs from latest `date_from` to earliest, the order of the intended comparator |
| `RasterList.RasterListContent.constructor` | components/user/RasterListContent.js:115-117 | the listing starts with no rows |
| `RasterList.RasterListContent.FetchData` | components/user/RasterListContent.js:127-152 | `rows` is the very array fetched, now a permutation of the annotated rows, sorted, and every row annotated |
| `RasterList.BasePath` | components/user/RasterListContent.js:110-112 | `typeBasePaths[type]` in a template literal: "/eo-sensors" for the only key "eoSensors", the text "undefined" for every other type |
| `RasterList.DownloadPath` | components/user/RasterListContent.js:156 | the requested path starts with the base path and ends, after "/download-raster/", with the id in decimal |
| `RasterList.DownloadPathOfRow` | components/user/RasterListContent.js:156 | an annotated row (type "eo-sensors") finds no base path: its path is "undefined/download-raster/<id>"; only "eoSensors" gives "/eo-sensors/download-raster/<id>" |
| `RasterList.DownloadPathInjective` | components/user/RasterListContent.js:156 | under one type, distinct ids give distinct download paths |
| `Js.IntToStringInjective` | components/user/RasterListContent.js:156 | distinct integers render differently |
| `LayersPage.BoundsOf` | pages/layers.js:65-67 | `[[extent[1], extent[0]], [extent[3], extent[2]]]`; a corner coordinate is defined exactly when the extent is long enough to hold it |
| `LayersPage.BoundsSwapCoordinates` | pages/layers.js:65-67 | bounds are `[[e1, e0], [e3, e2]]`: each (x, y) pair swapped to (y, x), and swapping back gives the extent |
| `LayersPage.BoundsOfInjective` | pages/layers.js:65-67 | distinct four-number extents give distinct bounds |
| `LayersPage.MaxZoom` | pages/layers.js:93 | the zoom limit is never falsy |
| `LayersPage.MaxZoomDefault` | pages/layers.js:93 | a missing or null `extra_fields` gives 18; with `extra_fields` present, a truthy `maxZoom` is used, and a missing, 0, null, false or empty `maxZoom` gives 18 |
| `LayersPage.Styles` | pages/layers.js:100 | `extra_fields && extra_fields["styles"]`: falsy without `extra_fields`, otherwise its `styles` member |
| `LayersPage.AreaData` | pages/layers.js:116 | `layer && layer.area_geom`: none without a layer, the layer's `area_geom` otherwise |
| `LayersPage.TileLayerOf` | pages/layers.js:90-112 | no tile layer without a layer; a raster layer on `tiles_url` with `maxZoom` exactly for type "R"; otherwise a vector layer on the same url with `maxNativeZoom` and the `styles` of `extra_fields` |
| `LayersPage.Rejection` | pages/layers.js:63-75 | the error the `catch` handler sees: none exactly for a loaded layer with an extent; the request's own error on failure; an error without a response when reading a missing extent throws |
| `LayersPage.ShouldLogout` | pages/layers.js:72 | `!response \|\| response.status >= 400` |
| `LayersPage.LogoutDecision` | pages/layers.js:70-74 | logout happens exactly on a failure with no response, a status of 400 or more, or a loaded layer without an extent (whose read throws into the same `catch`) |
| `LayersPage.Layers.constructor` | pages/layers.js:43-47 | no layer, no bounds, and the constant initial viewport |
| `LayersPage.Layers.ComponentDidMount` | pages/layers.js:56-76 | a loaded layer with an extent sets the layer and its bounds together and does not log out; otherwise the state is unchanged and `logout` is the catch handler's decision |
| `LayersPage.Layers.OnMapViewportChanged` | pages/layers.js:82-84 | only the viewport changes |
| `LayersPage.Layers.Render` | pages/layers.js:86-116 | the map gets the stored bounds and viewport, a tile layer exactly when a layer is loaded, and the layer's `area_geom` as area data (none without a layer) |

## Findings

| source | as written | input that shows it | evidently intended | confidence | as-written member | corrected member |
|---|---|---|---|---|---|---|
| components/user/RasterListContent.js:142 | `a["period"]["date_from"] > ["period"]["date_from"]` compares against a property of an array literal, which is `undefined`, so the test is always false and the comparator never returns -1 | rows a with `date_from` "2021-01-01" and b with "2020-01-01": compare(a, b) = 0 but compare(b, a) = 1, which is not a consistent comparator, so ECMAScript leaves the sort order implementation-defined | `b["period"]["date_from"]`: return -1 when a starts later, which is a consistent comparator putting the latest period first | high (not executed) | `RasterList.CompareInconsistent` | `RasterList.IntendedCompareConsistent` |

The modelled sort (`RasterList.SortRows`) asks only whether the comparator is
positive. There the written and the intended comparator agree
(`RasterList.CompareAgreesWithIntended`). So the order the model produces is
the intended one, proved in `RasterList.SortedMeansLatestFirst`. That holds
only of an exchange-based sort. An engine that moves a row only when the
comparator is negative never moves one here, because the written comparator
is never negative. V8's sort, read but not executed, tests `order < 0` in
both its run detection and its binary insertion. On V8 the rows would then
stay in the order the server sent them, and users could see the defect.

## Left out

- JSX rendering, Material-UI styles, `withStyles`/`withTranslation`/`withSnackbar` wrappers, page titles and the table's cells: presentation.
- The popover anchors (`stationsAnchorEl`, `timeRangeAnchorEl`) and the never-read `data` state field: presentation state.
- HTTP requests (axios, `buildApiUrl`), bearer tokens, cookies, the effect of `logout`, `FileDownload`, the clipboard and the router: these are I/O and foreign libraries. A response is an input value, and `logout` is a returned decision.
- A rejected `/eo-sensors/rasters` request: it rejects `fetchData` unhandled and changes no state.
- `setInterval` scheduling and the clock: `now` and the new timer's handle are parameters. The recurring refresh is not modelled. So the model cannot show that a timer dropped by `setHistoricMode` keeps firing `updateNow`.
- `StationsDashboardPage.StationsDashboard.HandleStationsSelectChange`: the value `e.target.value` comes from the select control, `StationsFilterButton`, which is not part of this model. The model therefore takes it as a number or a string (`SelectValue`) compared with strict equality. A string never matches a station's numeric id, so string values always clear the selection.
- `StationsDashboardPage.StationsDashboard.UpdateNow`: the `console.log` of the captured time is output only and is not modelled.
- React's batched, asynchronous `setState`: updates apply immediately, in call order.
- Moment's relative-date formatting and the analytics call `_trackEvent`: a locale library and an external service.
- pages/index.js, components/admin/HomeContent.js, components/SearchField.js and components/QuoteButton.js are not part of this model. They are presentation, and index.js refers to an undefined `sortedSections`.
- Station records carry only `id` and `name`. Raster rows carry only the fields the list reads. Dates are plain strings. A null date would print as "null".
- `Js.NumberOf`: models `Number(s)` only for white-space-trimmed, optionally signed decimal digit strings, and for the empty string (which gives 0). Fractions such as "1.0", exponents, hex prefixes and "Infinity" read as NaN. Integers beyond 2^53 are exact, not rounded. A repeated `id` query parameter, which Next.js delivers as an array, is not modelled.
- `Js.IntToString`: is exact decimal for every integer. JavaScript switches to exponent notation from 10^21 up.
- `Js.StringLess`: compares Unicode scalar values. JavaScript compares UTF-16 code units. The two differ only between characters above U+FFFF and characters from U+E000 to U+FFFF.
- `RasterList.SortRows`: ECMAScript promises only a permutation for an inconsistent comparator (section 23.1.3.30 of ECMA-262, 2023 edition). The model fixes one algorithm, an exchange-based insertion sort. Its order guarantee holds for any engine that exchanges exactly the pairs the comparator calls positive. No particular engine's algorithm is modelled.
- `RasterList.BasePath`: a key inherited from `Object.prototype` (such as "constructor") would find a function in `typeBasePaths`. Only own keys are modelled.
- `LayersPage`: JSON numbers are exact reals, not doubles. `extent` entries are numbers. Property reads are modelled only for the keys the page reads (`maxZoom`, `styles`) on objects; a non-object `extra_fields` reads them as `undefined`.
