# Urban problem reporter — verified model of its screen logic

The app lets a citizen mark problems on a map (potholes, accidents,
floods), draw routes, and review both in a reports screen. Everything
lives in the device's key-value storage. This project models the logic
behind those screens in Dafny and proves what it does:

- **Reports** (`reports.dfy`):
  - free-text search over problems (description or Portuguese type label) and routes (name or description);
  - the toggled problem-type filter, where an empty selection means no filter;
  - sorting by date, label or name in either direction;
  - delete by id;
  - the route-length sum (`distance.dfy`).
- **Map screen** (`map_screen.dfy`) and **map view** (`map_view.dfy`): two variants of the map editor. Each is a class whose fields are the component's state variables. Each handler is one atomic method whose `ensures` gives the whole new state.
- **Routes list** (`routes_screen.dfy`): load and delete.
- **Profile** (`profile_screen.dfy`): the edit / save / cancel cycle.
- **Theme** (`theme_context.dfy`): how the dark-mode preference is loaded and toggled, and which colour set is used.

Shared pieces:

- `domain.dfy`: the records, and the key-value store as a class over a `map<string, Value>`. Each read or write takes an `Outcome` (`Succeeded` or `Failed`) that stands for a storage failure.
- `seqs.dfy`: filtering, delete by id, substring search.
- `sorting.dfy`: a stable sort with a comparator.
- `decimal.dfy`: decimal rendering of numbers.

Library services are parameters:

- `lower` for `toLowerCase`;
- `collate` for `localeCompare`;
- `segment` for the haversine length of one leg;
- ids and timestamps, which the app takes from `Date.now()`.

The lemmas that rely on `collate` assume it is a total preorder.

## Model

| member | source | states |
|---|---|---|
| Domain.KeyValueStore.GetItem | components/RoutesScreen.tsx:26 | a stored key gives its value; a missing key gives nothing |
| Domain.KeyValueStore.SetItem | components/RoutesScreen.tsx:51 | a successful write replaces that one entry; a failed write changes nothing |
| Seqs.Filter | app/reports.tsx:222-231 | the result holds exactly the elements that pass the test and is never longer |
| Seqs.FilterCount | app/reports.tsx:222-231 | an element that passes occurs as often as in the input; one that fails does not occur |
| Seqs.FilterSubsequence | app/reports.tsx:222-231 | filtering keeps the relative order of what it keeps |
| Seqs.FilterAllPass | app/reports.tsx:213-214 | when everything passes, filtering changes nothing |
| Seqs.FilterDropsFailingLast | app/reports.tsx:213-214 | a failing last element is dropped and the rest is filtered as before |
| Seqs.FilterNoDuplicates | app/reports.tsx:213-214 | filtering a list without repeats gives a list without repeats |
| Seqs.Contains | app/reports.tsx:224 | `includes`: a contained query is no longer than the text; the empty query and the text itself are always contained |
| Seqs.ContainsAt | app/reports.tsx:223-224 | a query found at some position is contained in the text |
| Seqs.ContainsIsSlice | app/reports.tsx:223-224 | `includes` holds iff the query occurs at some position of the text |
| Seqs.ReverseMultiset | app/reports.tsx:233-237 | reversing a list keeps its elements and their counts |
| Seqs.WithoutId | app/reports.tsx:103 | an item stays iff it was there and its id differs from the deleted one |
| Seqs.WithoutIdContents | app/reports.tsx:125 | deleting keeps every other item exactly as many times as before and removes every item with that id |
| Seqs.WithoutIdKeepsOrder | components/RoutesScreen.tsx:49 | the remaining items keep their relative order |
| Seqs.WithoutAbsentId | components/RoutesScreen.tsx:49 | deleting an id that is not present leaves the list unchanged |
| Seqs.WithoutIdIdempotent | components/RoutesScreen.tsx:49 | deleting the same id twice is the same as deleting it once |
| Sorting.Insert | app/reports.tsx:233-244 | inserting adds exactly the one element |
| Sorting.Sort | app/reports.tsx:233-244 | the sorted list is a permutation of the input |
| Sorting.SortSorted | app/reports.tsx:233-244 | with a consistent comparator the result is in comparator order |
| Sorting.SortOfSorted | app/reports.tsx:242-243 | stability: input already in order, e.g. under a comparator that always returns 0, comes back unchanged |
| Sorting.ReverseSorted | app/reports.tsx:233-237 | a list in one order, read backwards, is in the opposite order |
| Sorting.SortedUnique | app/reports.tsx:233-237 | two sorted permutations of the same elements are equal when the comparator has no ties between distinct elements |
| Distance.PathLength | app/reports.tsx:274-296 | fewer than two points have length 0; two points have the length of their one leg |
| Distance.CalculateDistance | app/reports.tsx:274-296 | the loop returns the sum of the legs between consecutive points, which is 0 for fewer than two points |
| Distance.PathLengthFromFront | app/reports.tsx:275-294 | the total is the first leg plus the length of the rest |
| Distance.PathLengthReverse | app/reports.tsx:274-296 | with a symmetric leg length a route has the same length in either direction |
| Distance.PathLengthNonNegative | app/reports.tsx:274-296 | with non-negative legs the total is non-negative |
| Reports.ProblemTypeText | app/reports.tsx:134-145 | the three known types get their capitalised label; every other type gets 'Outro' |
| Reports.ToggledTypes | app/reports.tsx:210-216 | the toggled type is present iff it was absent, and is appended at the end; other types are untouched |
| Reports.ToggledTypesNoDuplicates | app/reports.tsx:210-216 | toggling never creates a repeated type |
| Reports.ToggleTwiceRestores | app/reports.tsx:210-216 | selecting a new type and deselecting it restores the selection |
| Reports.ProblemsView | app/reports.tsx:219-246 | the problems list is never longer than the saved markers and holds a marker iff it is saved and passes the search and the type filter |
| Reports.RoutesView | app/reports.tsx:247-271 | the routes list is never longer than the saved routes and holds a route iff it is saved and matches the search |
| Reports.ProblemComparator | app/reports.tsx:233-244 | 'date' orders by timestamp, earliest first for 'asc' and latest first for 'desc'; 'type' compares the labels with `localeCompare`, operands swapped for 'desc'; 'name' ties every pair |
| Reports.RouteComparator | app/reports.tsx:257-268 | 'date' orders by timestamp, earliest first for 'asc' and latest first for 'desc'; 'name' compares the names with `localeCompare`, operands swapped for 'desc'; 'type' ties every pair |
| Reports.ProblemsViewContents | app/reports.tsx:220-246 | the problems list holds each marker that passes search and type filter as often as it is saved, and nothing else |
| Reports.ProblemsViewUnfiltered | app/reports.tsx:220-246 | with no search text and no selected type the list is a permutation of all markers |
| Reports.ProblemsViewTypeFilter | app/reports.tsx:229-231 | with a selection every listed marker has a selected type, and no searched marker of a selected type is dropped |
| Reports.ProblemsViewSearch | app/reports.tsx:222-227 | with search text a marker is listed iff its lower-cased description or type label contains the lower-cased text |
| Reports.RoutesViewContents | app/reports.tsx:248-256 | a route is listed iff its name or description matches, as often as it is saved; the type selection is ignored |
| Reports.ProblemComparatorConsistent | app/reports.tsx:233-244 | the problems comparator is total and transitive for every key and order |
| Reports.RouteComparatorConsistent | app/reports.tsx:257-268 | the routes comparator is total and transitive for every key and order |
| Reports.ProblemsViewByDate | app/reports.tsx:233-237 | sorted by date the problem timestamps are non-decreasing for 'asc' and non-increasing for 'desc' |
| Reports.ProblemsViewByType | app/reports.tsx:238-241 | sorted by type the labels are in `localeCompare` order, reversed for 'desc' |
| Reports.ProblemsViewDescReversesAsc | app/reports.tsx:233-237 | when no two problems share a timestamp, the date-descending list is exactly the date-ascending list reversed |
| Reports.ProblemsViewAllTypes | app/reports.tsx:229-231 | selecting every type present filters nothing out: without search text the list is a permutation of the markers, kept in saved order under 'name' |
| Reports.ProblemsViewByNameKeepsOrder | app/reports.tsx:242-243 | 'name' does not apply to problems, so the filtered order is kept |
| Reports.RoutesViewByDate | app/reports.tsx:257-261 | sorted by date the route timestamps are non-decreasing for 'asc' and non-increasing for 'desc' |
| Reports.RoutesViewByName | app/reports.tsx:262-265 | sorted by name the names are in `localeCompare` order, reversed for 'desc' |
| Reports.RoutesViewByTypeKeepsOrder | app/reports.tsx:266-267 | 'type' does not apply to routes, so the filtered order is kept |
| Reports.NormalizeRoutes | app/reports.tsx:71-75 | a route without a date gets the load time and one without a description gets ""; existing dates and descriptions and every other field are kept |
| Reports.Screen.constructor | app/reports.tsx:45-55 | empty lists, problems tab, no search text, sorted by date descending, no selected type |
| Reports.Screen.LoadData | app/reports.tsx:61-82 | saved lists replace the shown ones (routes with defaults); a missing entry or a failed read keeps them |
| Reports.Screen.HandleSearch | app/reports.tsx:173-175 | the search text becomes the typed text |
| Reports.Screen.ToggleTypeFilter | app/reports.tsx:210-216 | the selection becomes the toggled selection and keeps having no repeats |
| Reports.Screen.DeleteMarker | app/reports.tsx:103-105 | the problem list loses that id; a successful write stores the new list, a failed one leaves storage alone |
| Reports.Screen.DeleteRoute | app/reports.tsx:125-127 | the route list loses that id; a successful write stores the new list, a failed one leaves storage alone |
| Reports.Screen.FilteredAndSortedData | app/reports.tsx:218-272 | the tab picks the list; it holds exactly the selected problems or the matching routes, and reading it changes no state |
| Decimal.NatToString | components/MapView.tsx:128 | a number renders as decimal digits without a leading zero |
| Decimal.NatToStringRoundTrip | components/MapView.tsx:128 | reading the digits back gives the number |
| Decimal.NatToStringInjective | components/MapView.tsx:128 | different numbers render differently |
| MapScreen.Near | components/MapScreen.tsx:99-107 | two equal points are near; near points differ by less than 0.0001 in latitude and in longitude |
| MapScreen.TrimStart | components/MapScreen.tsx:175 | the result is a suffix of the text, everything dropped is white space, and it starts with a visible character or is empty |
| MapScreen.TrimEnd | components/MapScreen.tsx:175 | the result is a prefix of the text, everything dropped is white space, and it ends with a visible character or is empty |
| MapScreen.Trim | components/MapScreen.tsx:175 | `trim()` leaves a visible character at each end, and gives '' exactly when the name is blank (all white space), which is the test `SaveRoute` applies |
| MapScreen.Screen.constructor | components/MapScreen.tsx:34-45 | no markers or routes, marker tool, type 'buraco', not drawing, no draft, dialogs closed |
| MapScreen.Screen.HandleMapPress | components/MapScreen.tsx:93-115 | marker tool: the point is kept and the dialog opens; route tool while drawing: the point is appended, or a tap near the last point of a draft of two or more finishes that draft; route tool otherwise: nothing changes |
| MapScreen.Screen.AddMarker | components/MapScreen.tsx:117-132 | without a tapped point nothing changes; otherwise exactly one marker from the point, type and description is appended, the dialog closes and the description clears |
| MapScreen.Screen.StartDrawingRoute | components/MapScreen.tsx:134-148 | route tool, drawing, empty draft; nothing else changes |
| MapScreen.Screen.FinishDrawingRoute | components/MapScreen.tsx:150-170 | no draft or fewer than two points changes nothing; otherwise the draft becomes one new route and the draft, flag, name and description are cleared |
| MapScreen.Screen.SaveRoute | components/MapScreen.tsx:172-197 | no draft or a blank name changes nothing; otherwise one route is appended with no point-count check, drawing stops and the marker tool is selected |
| MapScreen.Screen.CancelRoute | components/MapScreen.tsx:199-204 | the draft is dropped, drawing stops, the marker tool is selected, and the routes are untouched |
| MapScreen.Screen.SelectMarkerTool | components/MapScreen.tsx:312 | only the tool changes |
| MapView.RouteName | components/MapView.tsx:128 | the name is "Rota " followed by the count plus one |
| MapView.RouteNamesDistinct | components/MapView.tsx:128 | routes added at different positions get different names |
| MapView.Screen.constructor | components/MapView.tsx:31-40 | no markers or routes, marker tool, type 'buraco', not drawing, empty draft |
| MapView.Screen.HandleMapPress | components/MapView.tsx:89-96 | route tool while drawing appends the point; marker tool keeps the point and opens the dialog; route tool otherwise changes nothing |
| MapView.Screen.AddMarker | components/MapView.tsx:98-113 | without a tapped point nothing changes; otherwise exactly one marker is appended and the description clears |
| MapView.Screen.StartDrawingRoute | components/MapView.tsx:115-119 | route tool, drawing, empty draft |
| MapView.Screen.FinishDrawingRoute | components/MapView.tsx:121-138 | fewer than two points changes nothing and drawing goes on; otherwise one route named "Rota" and the list length plus one, with an empty description, is appended, drawing stops, the draft empties and the marker tool is selected; every route keeps at least two points |
| MapView.Screen.PressRouteButton | components/MapView.tsx:201 | the route button finishes a drawing in progress and otherwise starts one |
| MapView.Screen.SelectMarkerTool | components/MapView.tsx:194 | only the tool changes |
| RoutesScreen.Screen.constructor | components/RoutesScreen.tsx:18 | the list starts empty |
| RoutesScreen.Screen.LoadRoutes | components/RoutesScreen.tsx:24-33 | a saved list replaces the shown one; a missing key or a failed read keeps it, so it stays empty from the start |
| RoutesScreen.Screen.DeleteRoute | components/RoutesScreen.tsx:47-52 | exactly the routes with another id remain, in order; a successful write stores them so they read back |
| ProfileScreen.WithField | components/ProfileScreen.tsx:51-56 | the named field takes the value; the other two are unchanged |
| ProfileScreen.WithFieldRestore | components/ProfileScreen.tsx:51-56 | typing a value and then the old one back restores the profile |
| ProfileScreen.StringField | components/ProfileScreen.tsx:33 | a stored string field reads as itself, anything else as "" |
| ProfileScreen.ProfileFromJson | components/ProfileScreen.tsx:33 | only a stored object reads as a profile |
| ProfileScreen.ProfileJson | components/ProfileScreen.tsx:42 | the stored form has exactly the three fields and reads back as the same profile |
| ProfileScreen.StoredProfile | components/ProfileScreen.tsx:31-34 | a profile is shown only from a stored document under '@user_profile' |
| ProfileScreen.StoredProfileRoundTrip | components/ProfileScreen.tsx:40-44 | after storing a profile, loading gives that profile |
| ProfileScreen.Screen.constructor | components/ProfileScreen.tsx:17-23 | empty name, e-mail and phone, and editing off |
| ProfileScreen.Screen.LoadProfile | components/ProfileScreen.tsx:29-38 | a stored profile replaces the shown one; a missing entry or a failed read keeps it |
| ProfileScreen.Screen.StartEditing | components/ProfileScreen.tsx:124 | editing turns on |
| ProfileScreen.Screen.HandleInputChange | components/ProfileScreen.tsx:51-56 | only the named field changes |
| ProfileScreen.Screen.SaveProfile | components/ProfileScreen.tsx:40-49 | success stores the profile under '@user_profile' and ends editing; failure changes neither storage nor editing |
| ProfileScreen.Screen.CancelEditing | components/ProfileScreen.tsx:107-110 | editing ends and the stored profile is reloaded; with none stored the edited values remain |
| ThemeContext.Colors | contexts/ThemeContext.tsx:86 | the dark colour set is chosen iff dark mode is on |
| ThemeContext.LoadedDarkMode | contexts/ThemeContext.tsx:57-70 | stored preferences decide by the truthiness of `darkMode`, defaulting to false; none stored, null, or a failed read follow the system scheme |
| ThemeContext.PreferencesAfterToggle | contexts/ThemeContext.tsx:76-80 | the written preferences set `darkMode` to the new value and keep every other key; absent preferences become a new object |
| ThemeContext.LoadAfterToggle | contexts/ThemeContext.tsx:72-84 | loading what a toggle wrote gives the new value, whatever the system scheme |
| ThemeContext.ToggleTwice | contexts/ThemeContext.tsx:72-84 | two toggles store the original preferences again |
| ThemeContext.Provider.constructor | contexts/ThemeContext.tsx:51 | light mode until loaded |
| ThemeContext.Provider.CurrentColors | contexts/ThemeContext.tsx:86 | the colours given to the screens are the dark set iff dark mode is on |
| ThemeContext.Provider.LoadThemePreference | contexts/ThemeContext.tsx:57-70 | dark mode becomes the loaded setting |
| ThemeContext.Provider.ToggleTheme | contexts/ThemeContext.tsx:72-84 | dark mode flips even if storage fails; the new preferences are written only when the read and the write succeed, and then load back as the new value |

## Left out

- Storage text format: `JSON.parse` and `JSON.stringify` are not modelled as text. Stored entries are values (`MarkerList`, `RouteList`, or a JSON `Document`), so text that does not parse is not represented.
- Asynchronous scheduling: every handler runs as one atomic step, and the read and write outcomes are parameters.
- Map screen and map view persistence: `loadSavedData` and `saveData` (components/MapScreen.tsx:68-91, components/MapView.tsx:64-87) are not modelled. `saveData` writes the arrays as they were before the handler's update, so the model makes no claim that a new marker or route is stored.
- MapScreen.Screen.HandleMapPress: a tap near the last point finishes the draft as it was before the tap. This follows the stale closure in components/MapScreen.tsx:108. The tapped point is not added, and the tool stays on 'route'.
- MapScreen.Screen.SaveRoute: the "Salvar Rota" dialog that calls it is never opened, because nothing sets `routeModalVisible` to true. The method is modelled as written all the same.
- `handleSaveRoute` (components/MapScreen.tsx:239-256) is never called and is not part of this model. It differs from SaveRoute in three ways: it has no blank-name check, it does not select the marker tool again, and it does not call `saveData`.
- MapScreen.Near: this is the Euclidean test on latitude and longitude in exact real arithmetic. Floating-point rounding of `Math.sqrt` and `Math.pow` is not modelled.
- Distance.CalculateDistance: the haversine length of one leg (R = 6371e3) is the `segment` parameter, since floating-point trigonometry is out of scope.
- Reports.ProblemsViewByType and Reports.RoutesViewByName assume that `collate` (`localeCompare`) is a total preorder. Locale-specific collation itself is not modelled.
- Sorting.Sort: any stable sort gives the same result under a consistent comparator. Comparator-inconsistent inputs are not modelled, since the engine's order is then unspecified.
- Dates: dates are integer timestamps rather than ISO strings. A route without a date sorts as time 0 in the reports view; in the app, `new Date(undefined)` is NaN and makes the comparator inconsistent. Reports.Screen.LoadData gives undated routes the load time, so this only affects routes built without loading.
- MapView.RouteName: a new route is named after the length of the list it joins, so names can repeat. This happens when routes were deleted elsewhere and the shorter list was loaded from '@routes'. The model claims no uniqueness for names, only that different lengths give different names (MapView.RouteNamesDistinct).
- Ids and timestamps from `Date.now()` are parameters. Id uniqueness is not enforced by the app and is not assumed.
- ProfileScreen.StringField: a stored field that is not a string reads as "". The app would keep the raw value, which the text inputs then show. A stored value that is not an object (e.g. `null`) leaves the shown profile unchanged here, while the app would replace it and fail on render.
- Confirmation dialogs before delete (`Alert.alert`), success and error alerts, `Share`, modals, location permission, map and polyline rendering, and date and number display formatting are platform or display code.
- UI-only setters (tab, sort key and order buttons, modal visibility, dialog text fields, refresh) only assign one state field. They are not modelled as separate methods.
- App.tsx, the tab navigator, the layout files and the style sheets hold no logic.
