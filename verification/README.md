# tsml-ui: state transitions of the meeting finder

A Dafny model of the logic that surrounds the data engine of tsml-ui, a
directory of recurring meetings that the user narrows by search text,
location and facets (type, region, weekday, time, distance). The model
covers:

- **The search-and-filter bar** (`src/components/Controls.tsx`). Given the
  capabilities of the loaded data and whether a mapbox key is configured,
  it decides which search modes, filter dropdowns and views to offer. It
  also defines the transitions behind the mode menu, the location form, the
  view toggle and the search field. The bar's local search buffer is
  explicit (`Controls.Panel`).
- **Facet selections** (`Selection`). These are the dropdown clicks (plain,
  meta, "any") and the "remove" buttons of the no-results alert, as the
  component tests assert them. Each edits one input key and nothing else.
- **The application shell** (`src/app.jsx`). It covers the initial loading
  state, how the one fetch settles into a ready or failed state, and the
  per-render filtering that derives the no-results alert and the screen.

The state is immutable: `AppState.State`, `Input`, `Caps` and `Indexes`
follow the current revision's shape (`src/components/__tests__/mocks.ts`).
The shell keeps its own older vocabulary in module `App`: a `day`
capability and index, a `list` view and a `map` capability. Every
transition is a pure function. Its contract lists the fields it sets.
The predicates `InputFrame`, `CapsFrame` and `IndexesFrame` state, key by
key, that nothing else changes.

The data engine (`loadData`, `filterData`, `translateGoogleSheet`) is not
part of this model. `App.Engine` holds it as uninterpreted functions over a
payload type, and the shell's contracts are stated in terms of whatever
those functions return. The fetch outcome, the page element's `src` and
`mapbox` attributes, the configured filter list (`settings.filters`) and
the `title` setting are parameters.

Two consequences of the code are worth stating:
- Only a rejected fetch, or a body that is not JSON, reaches the error
  branch (src/app.jsx:90-95). A payload that `loadData` cannot handle
  raises inside the success handler (src/app.jsx:72-88). Loading then
  never ends, and no `bad_data` error is set.
- After a load, the no-results alert is raised whenever the filtered list
  is empty (src/app.jsx:119). That includes a data set with no meetings at
  all (`App.EmptyLoadAlerts`).

## Model

| member | source | states |
|---|---|---|
| Controls.OfferedModes | src/components/Controls.tsx:27-36 | search is always offered; location iff coordinates and a mapbox key; me iff coordinates and geolocation; the result keeps the menu order |
| Controls.OfferedModesListed | src/components/Controls.tsx:27-36 | the offered modes are exactly search, then location if supported, then me if supported |
| Controls.OfferedFilters | src/components/Controls.tsx:39-42 | the dropdowns are an order-preserving subsequence of the configured filters, each with its capability set; every configured, supported and allowed filter appears; no region near the device, no distance in text search |
| Controls.OfferedViews | src/components/Controls.tsx:45-48 | the table is always offered, the map iff coordinates and a mapbox key, in button order |
| Controls.CanShowViews | src/components/Controls.tsx:45-51 | the view toggle appears iff coordinates and a mapbox key are present |
| Controls.Layout | src/components/Controls.tsx:133-218 | no bar without meetings; otherwise it carries the offered modes, filters and views, the mode menu appears iff a second mode is supported, the search field is disabled exactly near the device, and the view toggle appears iff more than one view is offered, that is iff the map is |
| Controls.Open | src/components/Controls.tsx:21-23 | a freshly mounted bar shows the state's search text; the buffer is empty outside location mode |
| Controls.LocationSearch | src/components/Controls.tsx:81-95 | in location mode the buffer becomes the search text and the reference point is dropped, no other input key changes; in other modes nothing changes |
| Controls.SetMode | src/components/Controls.tsx:98-127 | sets the mode; clears the search, the buffer, the distance selection, the reference point, the distance capability and index, and every meeting's distance; every other input key, capability, index and meeting field is kept |
| Controls.SetView | src/components/Controls.tsx:130-131 | sets the view and changes nothing else |
| Controls.TypeText | src/components/Controls.tsx:143-150 | in text-search mode typing sets the search text and nothing else; in other modes only the buffer changes |
| Controls.SetModeLastWins | src/components/Controls.tsx:108-126 | two mode choices in a row leave the same state as the second alone |
| Controls.NoDistanceFilterAfterSetMode | src/components/Controls.tsx:108-113 | right after a mode change the distance dropdown is not offered |
| Controls.SetViewKeepsLayout | src/components/Controls.tsx:130-131 | switching views does not change what the bar offers |
| Controls.LocationSearchIdempotent | src/components/Controls.tsx:84-94 | submitting the location form twice equals submitting it once |
| Controls.TypedTextShown | src/components/Controls.tsx:142-157 | outside me mode the field shows what was typed; in me mode it keeps its display |
| Controls.LocationRoundTrip | src/components/Controls.tsx:81-95 | a typed and submitted location becomes the search text, and a remounted bar shows the same buffer |
| AppState.WithSelected | src/components/__tests__/Dropdown.spec.tsx:61-69 | replacing one facet's selection sets exactly that key of the input |
| Selection.Pick | src/components/__tests__/Dropdown.spec.tsx:83-100 | a plain click selects only that value; a meta-click appends an unselected value at the end, or drops a selected one and keeps the others in order; "any" clears the facet |
| Selection.MetaRemovesOne | src/components/__tests__/Dropdown.spec.tsx:93-95 | a meta-click on a selected value of a repeat-free selection shortens it by one |
| Selection.PickKeepsDistinct | src/components/__tests__/Dropdown.spec.tsx:83-100 | no click introduces a repeated value |
| Selection.MetaTwiceRestores | src/components/__tests__/Dropdown.spec.tsx:87-95 | meta-clicking an unselected value twice restores the selection |
| Selection.Choose | src/components/__tests__/Dropdown.spec.tsx:61-100 | a dropdown click changes only that facet's input key; the rest of the state is as before |
| Selection.DropdownScenario | src/components/__tests__/Dropdown.spec.tsx:79-100 | the test's clicks yield foo, then foo and bar, then bar, then nothing, each as a one-key change of the state |
| Selection.Remove | src/components/__tests__/Alert.spec.tsx:37-60 | a remove button empties the search text or one facet's selection and changes no other key |
| Selection.RemoveIsAny | src/components/__tests__/Dropdown.spec.tsx:97-100 | removing a facet from the alert is the dropdown's "any" entry |
| Selection.RemoveIdempotent | src/components/__tests__/Alert.spec.tsx:47-60 | pressing a remove button twice equals pressing it once |
| Selection.AlertScenario | src/components/__tests__/Alert.spec.tsx:47-60 | each of the test's remove buttons yields the state with that one key emptied |
| App.Init | src/app.jsx:29-51 | the initial state is loading, every capability false, every index and the meeting list empty, no error and no alert |
| App.MapboxKey | src/app.jsx:62-64 | a non-empty mapbox attribute replaces the configured key, otherwise the configured key is kept; a key is available iff one of them is non-empty |
| App.MapboxKeyStable | src/app.jsx:62-64 | applying the attribute a second time changes nothing |
| App.Payload | src/app.jsx:74-76 | the sheet translator is applied iff the source URL contains the spreadsheet host |
| App.Mount | src/app.jsx:67-97 | a rejected fetch stops loading with bad_data if a source was given and no_data otherwise; a body with a source given stops loading and installs exactly what loadData returns, nothing else changing; with no source the state is unchanged |
| App.MountSettles | src/app.jsx:78-95 | from the initial state a settled load is failed exactly when the fetch was rejected, ready otherwise |
| App.Render | src/app.jsx:110-158 | nothing is filtered while loading; afterwards the alert is no_results iff the filtered list is empty, the detail is shown iff a meeting is open, and the table or map only with results and the matching view |
| App.InitRendersLoading | src/app.jsx:111-125 | before the load settles a render filters nothing, changes nothing and shows the loading screen |
| App.ListingAgreesWithAlert | src/app.jsx:111-154 | in the listing the alert is raised iff no slug is listed, and table and map are never both shown |
| App.RenderKeepsPhase | src/app.jsx:113-123 | rendering keeps the phase, the meetings, indexes, capabilities and query |
| App.EmptyLoadAlerts | src/app.jsx:78-119 | a successful load that installs no meetings is ready with an empty meeting list, and still gets the no-results alert when filtering yields nothing |

## Left out

- `loadData`, `filterData`, `translateGoogleSheet`: their code is not part of this model; they are uninterpreted fields of `App.Engine`, so nothing is proved about normalisation, indexing, filtering or the sheet translation themselves.
- Fetch, JSON parsing, DOM lookup of the `<meetings>` element, `ReactDOM` rendering and `console.error`: I/O; the fetch outcome and the element's attributes are parameters.
- `setQueryString` (URL update on render) and `getQueryString` (initial input): the query string encoding is not part of this model; the initial input is a parameter.
- `setAppState` and `setMapInitialized`: a generic single-key setter and a flag write made without re-rendering; neither carries logic beyond the assignment.
- Dropdown open/close state, the body click listener, the focus `setTimeout` after a mode change and the 2-second analytics debounce: DOM and timing side effects.
- JSX markup, CSS classes, strings and the `end` placement of the last dropdown: presentation only.
- Meeting start and end times, time zones and the active flag: dates are not modelled; meetings carry no times.
- `src/components/Dropdown.tsx` and `src/components/Alert.tsx` are not part of this model: their click and remove semantics are taken from their tests; the remove buttons are modelled for every facet, while the tests exercise search, region, time, type and weekday.
- Rendering tests (Table, Meeting, Link, Title and the rendering half of the Alert test) and the map component: they assert markup or contradict each other, so they specify no state change.
- `Controls.SetMode`: the source clears each meeting's distance by mutating the shared meeting objects before the state update; the model returns a new meetings map instead, so aliasing between the old and new state is not modelled.
- `Controls.TypeText`: the source writes the search text into the current state object in place before re-setting it; the model returns the updated state.
- `App.Render`: the source writes `alert` and `map_initialized` into the current state object in place, without `setState`; the model returns them in a new state.
- `App.Mount`: an exception raised inside `loadData` or `translateGoogleSheet` is not modelled (the engine functions are total); in the source it leaves the state loading.
