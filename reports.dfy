/**
 * The reports screen: the list of saved problems and routes, searched,
 * filtered by problem type and sorted, with delete by id.
 *
 * Two library services are parameters: `lower` stands for
 * String.prototype.toLowerCase and `collate` for
 * String.prototype.localeCompare (negative, zero or positive).
 */
module Reports {
  import opened Domain
  import opened Seqs
  import opened Sorting

  datatype Tab = ProblemsTab | RoutesTab
  datatype SortKey = ByDate | ByType | ByName
  datatype SortOrder = Asc | Desc

  /** What the list shows: problems or routes. */
  datatype ViewData = ProblemItems(markers: seq<Marker>) | RouteItems(routes: seq<Route>)

  predicate IsKnownType(problemType: string) {
    problemType == "buraco" || problemType == "acidente" || problemType == "alagamento"
  }

  /** `getProblemTypeText`: the Portuguese label of a problem type. */
  function ProblemTypeText(problemType: string): (text: string)
    ensures text in ["Buraco", "Acidente", "Alagamento", "Outro"]
    ensures text == "Outro" <==> !IsKnownType(problemType)
    ensures IsKnownType(problemType) ==> text[1..] == problemType[1..]
  {
    if problemType == "buraco" then "Buraco"
    else if problemType == "acidente" then "Acidente"
    else if problemType == "alagamento" then "Alagamento"
    else "Outro"
  }

  function OtherThan(t: string): string -> bool {
    u => u != t
  }

  /**
   * `toggleTypeFilter`: a selected type is removed, any other type is
   * appended at the end.
   */
  function ToggledTypes(selected: seq<string>, t: string): (r: seq<string>)
    ensures t in r <==> t !in selected
    ensures forall u :: u != t ==> (u in r <==> u in selected)
    ensures t !in selected ==> r == selected + [t]
  {
    if t in selected then Filter(selected, OtherThan(t)) else selected + [t]
  }

  /** Toggling never introduces a duplicate into the selected types. */
  lemma ToggledTypesNoDuplicates(selected: seq<string>, t: string)
    requires NoDuplicates(selected)
    ensures NoDuplicates(ToggledTypes(selected, t))
  {
    if t in selected {
      FilterNoDuplicates(selected, OtherThan(t));
    }
  }

  /** Toggling a type on and off again restores the selection. */
  lemma ToggleTwiceRestores(selected: seq<string>, t: string)
    requires t !in selected
    ensures ToggledTypes(ToggledTypes(selected, t), t) == selected
  {
    FilterDropsFailingLast(selected, t, OtherThan(t));
    FilterAllPass(selected, OtherThan(t));
  }

  // ---------------------------------------------------------------- search

  /** `text.toLowerCase().includes(query.toLowerCase())` */
  predicate MatchesText(text: string, query: string, lower: string -> string) {
    Contains(lower(text), lower(query))
  }

  /** The search test of the problems tab: description or type label. */
  predicate ProblemMatches(m: Marker, query: string, lower: string -> string) {
    MatchesText(m.description, query, lower) || MatchesText(ProblemTypeText(m.problemType), query, lower)
  }

  /** `item.description?.toLowerCase() || ''` */
  function RouteDescriptionText(r: Route, lower: string -> string): string {
    match r.description
    case Some(d) => lower(d)
    case None => ""
  }

  /** The search test of the routes tab: name or description. */
  predicate RouteMatches(r: Route, query: string, lower: string -> string) {
    MatchesText(r.name, query, lower) || Contains(RouteDescriptionText(r, lower), lower(query))
  }

  function ProblemMatcher(query: string, lower: string -> string): Marker -> bool {
    (m: Marker) => ProblemMatches(m, query, lower)
  }

  function TypeMatcher(selectedTypes: seq<string>): Marker -> bool {
    (m: Marker) => m.problemType in selectedTypes
  }

  function RouteMatcher(query: string, lower: string -> string): Route -> bool {
    (r: Route) => RouteMatches(r, query, lower)
  }

  /** The search filter, applied only when the search text is not empty. */
  function SearchProblems(markers: seq<Marker>, searchText: string, lower: string -> string): seq<Marker> {
    if searchText != "" then Filter(markers, ProblemMatcher(searchText, lower)) else markers
  }

  /** The category filter; an empty selection filters nothing. */
  function FilterByTypes(data: seq<Marker>, selectedTypes: seq<string>): seq<Marker> {
    if |selectedTypes| > 0 then Filter(data, TypeMatcher(selectedTypes)) else data
  }

  function SearchRoutes(routes: seq<Route>, searchText: string, lower: string -> string): seq<Route> {
    if searchText != "" then Filter(routes, RouteMatcher(searchText, lower)) else routes
  }

  /** Whether a marker is listed on the problems tab. */
  predicate ProblemSelected(m: Marker, searchText: string, selectedTypes: seq<string>, lower: string -> string) {
    && (searchText == "" || ProblemMatches(m, searchText, lower))
    && (|selectedTypes| == 0 || m.problemType in selectedTypes)
  }

  /** Whether a route is listed on the routes tab. */
  predicate RouteSelected(r: Route, searchText: string, lower: string -> string) {
    searchText == "" || RouteMatches(r, searchText, lower)
  }

  // ------------------------------------------------------------------ sort

  /** The date comparison: `ta - tb` ascending, `tb - ta` descending. */
  function DateOrder(ta: int, tb: int, order: SortOrder): int {
    if order == Asc then ta - tb else tb - ta
  }

  /** The label comparison with `localeCompare`, arguments swapped for descending. */
  function TextOrder(a: string, b: string, order: SortOrder, collate: (string, string) -> int): int {
    if order == Asc then collate(a, b) else collate(b, a)
  }

  /** The comparator of the problems tab; 'name' does not apply and gives 0. */
  function ProblemComparator(sortBy: SortKey, order: SortOrder, collate: (string, string) -> int): (cmp: (Marker, Marker) -> int)
    ensures sortBy == ByDate ==>
      forall a, b :: cmp(a, b) <= 0 <==> if order == Asc then a.date <= b.date else b.date <= a.date
    ensures sortBy == ByType ==>
      forall a: Marker, b: Marker :: var la, lb := ProblemTypeText(a.problemType), ProblemTypeText(b.problemType);
        cmp(a, b) == if order == Asc then collate(la, lb) else collate(lb, la)
    ensures sortBy == ByName ==> forall a, b :: cmp(a, b) == 0
  {
    (a: Marker, b: Marker) =>
      if sortBy == ByDate then DateOrder(a.date, b.date, order)
      else if sortBy == ByType then TextOrder(ProblemTypeText(a.problemType), ProblemTypeText(b.problemType), order, collate)
      else 0
  }

  /**
   * The time of a route's date. Routes on this screen always carry one
   * (LoadData fills it in); 0 stands in for a missing one.
   */
  function RouteTime(r: Route): int {
    match r.date
    case Some(t) => t
    case None => 0
  }

  /** The comparator of the routes tab; 'type' does not apply and gives 0. */
  function RouteComparator(sortBy: SortKey, order: SortOrder, collate: (string, string) -> int): (cmp: (Route, Route) -> int)
    ensures sortBy == ByDate ==>
      forall a, b :: cmp(a, b) <= 0 <==> if order == Asc then RouteTime(a) <= RouteTime(b) else RouteTime(b) <= RouteTime(a)
    ensures sortBy == ByName ==>
      forall a, b :: cmp(a, b) == if order == Asc then collate(a.name, b.name) else collate(b.name, a.name)
    ensures sortBy == ByType ==> forall a, b :: cmp(a, b) == 0
  {
    (a: Route, b: Route) =>
      if sortBy == ByDate then DateOrder(RouteTime(a), RouteTime(b), order)
      else if sortBy == ByName then TextOrder(a.name, b.name, order, collate)
      else 0
  }

  /** The problems tab of `getFilteredAndSortedData`, on a copy of `markers`. */
  function ProblemsView(
    markers: seq<Marker>, searchText: string, selectedTypes: seq<string>,
    sortBy: SortKey, order: SortOrder, lower: string -> string, collate: (string, string) -> int): (r: seq<Marker>)
    ensures |r| <= |markers|
    ensures forall m :: m in r <==> m in markers && ProblemSelected(m, searchText, selectedTypes, lower)
  {
    var data := FilterByTypes(SearchProblems(markers, searchText, lower), selectedTypes);
    var r := Sort(data, ProblemComparator(sortBy, order, collate));
    assert forall m :: m in r <==> m in multiset(data);
    r
  }

  /** The routes tab of `getFilteredAndSortedData`; the type selection plays no part. */
  function RoutesView(
    routes: seq<Route>, searchText: string,
    sortBy: SortKey, order: SortOrder, lower: string -> string, collate: (string, string) -> int): (r: seq<Route>)
    ensures |r| <= |routes|
    ensures forall x :: x in r <==> x in routes && RouteSelected(x, searchText, lower)
  {
    var data := SearchRoutes(routes, searchText, lower);
    assert forall x :: x in data <==> x in routes && RouteSelected(x, searchText, lower) by {
      if searchText != "" {
        assert forall x :: RouteMatcher(searchText, lower)(x) == RouteMatches(x, searchText, lower);
      }
    }
    var r := Sort(data, RouteComparator(sortBy, order, collate));
    assert forall x :: x in r <==> x in multiset(data);
    r
  }

  // ---------------------------------------------------- what the views hold

  /** The problems tab lists each selected marker as often as it is saved, and nothing else. */
  lemma ProblemsViewContents(
    markers: seq<Marker>, searchText: string, selectedTypes: seq<string>,
    sortBy: SortKey, order: SortOrder, lower: string -> string, collate: (string, string) -> int)
    ensures forall m :: multiset(ProblemsView(markers, searchText, selectedTypes, sortBy, order, lower, collate))[m]
                     == if ProblemSelected(m, searchText, selectedTypes, lower) then multiset(markers)[m] else 0
  {
    forall m
      ensures multiset(ProblemsView(markers, searchText, selectedTypes, sortBy, order, lower, collate))[m]
           == if ProblemSelected(m, searchText, selectedTypes, lower) then multiset(markers)[m] else 0
    {
      if searchText != "" {
        FilterCount(markers, ProblemMatcher(searchText, lower), m);
      }
      if |selectedTypes| > 0 {
        FilterCount(SearchProblems(markers, searchText, lower), TypeMatcher(selectedTypes), m);
      }
    }
  }

  /** No search text and no selected type: the tab is a permutation of all markers. */
  lemma ProblemsViewUnfiltered(
    markers: seq<Marker>, sortBy: SortKey, order: SortOrder,
    lower: string -> string, collate: (string, string) -> int)
    ensures multiset(ProblemsView(markers, "", [], sortBy, order, lower, collate)) == multiset(markers)
  {
    ProblemsViewContents(markers, "", [], sortBy, order, lower, collate);
    assert forall m :: ProblemSelected(m, "", [], lower);
  }

  /**
   * With a type selection every listed marker has a selected type, and no
   * marker that passes the search and has a selected type is left out.
   */
  lemma ProblemsViewTypeFilter(
    markers: seq<Marker>, searchText: string, selectedTypes: seq<string>,
    sortBy: SortKey, order: SortOrder, lower: string -> string, collate: (string, string) -> int)
    requires |selectedTypes| > 0
    ensures var v := ProblemsView(markers, searchText, selectedTypes, sortBy, order, lower, collate);
      && (forall m :: m in v ==> m.problemType in selectedTypes)
      && (forall m :: (m in markers && (searchText == "" || ProblemMatches(m, searchText, lower))
                       && m.problemType in selectedTypes) ==> m in v)
  {
    var v := ProblemsView(markers, searchText, selectedTypes, sortBy, order, lower, collate);
    ProblemsViewContents(markers, searchText, selectedTypes, sortBy, order, lower, collate);
    forall m | m in v ensures m.problemType in selectedTypes {
      assert multiset(v)[m] > 0;
    }
    forall m | m in markers && (searchText == "" || ProblemMatches(m, searchText, lower)) && m.problemType in selectedTypes
      ensures m in v
    {
      assert multiset(markers)[m] > 0;
      assert ProblemSelected(m, searchText, selectedTypes, lower);
    }
  }

  /**
   * With search text and no type selection a marker is listed iff its
   * lower-cased description or type label contains the lower-cased text
   * (unknown types are searched as 'Outro').
   */
  lemma ProblemsViewSearch(
    markers: seq<Marker>, searchText: string,
    sortBy: SortKey, order: SortOrder, lower: string -> string, collate: (string, string) -> int)
    requires searchText != ""
    ensures forall m :: m in ProblemsView(markers, searchText, [], sortBy, order, lower, collate)
                    <==> m in markers && (Contains(lower(m.description), lower(searchText))
                                          || Contains(lower(ProblemTypeText(m.problemType)), lower(searchText)))
  {
    var v := ProblemsView(markers, searchText, [], sortBy, order, lower, collate);
    ProblemsViewContents(markers, searchText, [], sortBy, order, lower, collate);
    forall m
      ensures m in v <==> m in markers && (Contains(lower(m.description), lower(searchText))
                                           || Contains(lower(ProblemTypeText(m.problemType)), lower(searchText)))
    {
      assert m in v <==> multiset(v)[m] > 0;
      assert m in markers <==> multiset(markers)[m] > 0;
      assert ProblemSelected(m, searchText, [], lower) <==> ProblemMatches(m, searchText, lower);
    }
  }

  /** The routes tab lists each matching route as often as it is saved, and nothing else. */
  lemma RoutesViewContents(
    routes: seq<Route>, searchText: string,
    sortBy: SortKey, order: SortOrder, lower: string -> string, collate: (string, string) -> int)
    ensures forall r :: multiset(RoutesView(routes, searchText, sortBy, order, lower, collate))[r]
                     == if RouteSelected(r, searchText, lower) then multiset(routes)[r] else 0
  {
    forall r
      ensures multiset(RoutesView(routes, searchText, sortBy, order, lower, collate))[r]
           == if RouteSelected(r, searchText, lower) then multiset(routes)[r] else 0
    {
      if searchText != "" {
        FilterCount(routes, RouteMatcher(searchText, lower), r);
      }
    }
  }

  // ------------------------------------------------------ how they are ordered

  /** The problems comparator is consistent for dates, and for labels when `collate` is. */
  lemma ProblemComparatorConsistent(sortBy: SortKey, order: SortOrder, collate: (string, string) -> int)
    requires sortBy == ByType ==> TotalPreorder(collate)
    ensures TotalPreorder(ProblemComparator(sortBy, order, collate))
  {
    var cmp := ProblemComparator(sortBy, order, collate);
    if sortBy == ByType {
      forall a, b ensures cmp(a, b) <= 0 || cmp(b, a) <= 0 {
        var la, lb := ProblemTypeText(a.problemType), ProblemTypeText(b.problemType);
        assert collate(la, lb) <= 0 || collate(lb, la) <= 0;
      }
      forall a, b, c | cmp(a, b) <= 0 && cmp(b, c) <= 0 ensures cmp(a, c) <= 0 {
        var la, lb, lc := ProblemTypeText(a.problemType), ProblemTypeText(b.problemType), ProblemTypeText(c.problemType);
        if order == Asc {
          assert collate(la, lb) <= 0 && collate(lb, lc) <= 0;
        } else {
          assert collate(lc, lb) <= 0 && collate(lb, la) <= 0;
        }
      }
    }
  }

  /** The routes comparator is consistent for dates, and for names when `collate` is. */
  lemma RouteComparatorConsistent(sortBy: SortKey, order: SortOrder, collate: (string, string) -> int)
    requires sortBy == ByName ==> TotalPreorder(collate)
    ensures TotalPreorder(RouteComparator(sortBy, order, collate))
  {
    var cmp := RouteComparator(sortBy, order, collate);
    if sortBy == ByName {
      forall a, b ensures cmp(a, b) <= 0 || cmp(b, a) <= 0 {
        assert collate(a.name, b.name) <= 0 || collate(b.name, a.name) <= 0;
      }
      forall a, b, c | cmp(a, b) <= 0 && cmp(b, c) <= 0 ensures cmp(a, c) <= 0 {
        if order == Asc {
          assert collate(a.name, b.name) <= 0 && collate(b.name, c.name) <= 0;
        } else {
          assert collate(c.name, b.name) <= 0 && collate(b.name, a.name) <= 0;
        }
      }
    }
  }

  /** Sorted by date: non-decreasing times ascending, non-increasing descending. */
  lemma ProblemsViewByDate(
    markers: seq<Marker>, searchText: string, selectedTypes: seq<string>,
    order: SortOrder, lower: string -> string, collate: (string, string) -> int)
    ensures var v := ProblemsView(markers, searchText, selectedTypes, ByDate, order, lower, collate);
      forall i, j :: 0 <= i < j < |v| ==> if order == Asc then v[i].date <= v[j].date else v[i].date >= v[j].date
  {
    var cmp := ProblemComparator(ByDate, order, collate);
    ProblemComparatorConsistent(ByDate, order, collate);
    SortSorted(FilterByTypes(SearchProblems(markers, searchText, lower), selectedTypes), cmp);
  }

  /** Sorted by type: labels in `localeCompare` order, reversed for descending. */
  lemma ProblemsViewByType(
    markers: seq<Marker>, searchText: string, selectedTypes: seq<string>,
    order: SortOrder, lower: string -> string, collate: (string, string) -> int)
    requires TotalPreorder(collate)
    ensures var v := ProblemsView(markers, searchText, selectedTypes, ByType, order, lower, collate);
      forall i, j :: 0 <= i < j < |v| ==>
        if order == Asc then collate(ProblemTypeText(v[i].problemType), ProblemTypeText(v[j].problemType)) <= 0
        else collate(ProblemTypeText(v[j].problemType), ProblemTypeText(v[i].problemType)) <= 0
  {
    var cmp := ProblemComparator(ByType, order, collate);
    ProblemComparatorConsistent(ByType, order, collate);
    SortSorted(FilterByTypes(SearchProblems(markers, searchText, lower), selectedTypes), cmp);
  }

  /** 'name' does not apply to problems: the filtered order is kept. */
  lemma ProblemsViewByNameKeepsOrder(
    markers: seq<Marker>, searchText: string, selectedTypes: seq<string>,
    order: SortOrder, lower: string -> string, collate: (string, string) -> int)
    ensures ProblemsView(markers, searchText, selectedTypes, ByName, order, lower, collate)
         == FilterByTypes(SearchProblems(markers, searchText, lower), selectedTypes)
  {
    SortOfSorted(FilterByTypes(SearchProblems(markers, searchText, lower), selectedTypes), ProblemComparator(ByName, order, collate));
  }

  /** Routes sorted by date: non-decreasing times ascending, non-increasing descending. */
  lemma RoutesViewByDate(
    routes: seq<Route>, searchText: string,
    order: SortOrder, lower: string -> string, collate: (string, string) -> int)
    ensures var v := RoutesView(routes, searchText, ByDate, order, lower, collate);
      forall i, j :: 0 <= i < j < |v| ==> if order == Asc then RouteTime(v[i]) <= RouteTime(v[j]) else RouteTime(v[i]) >= RouteTime(v[j])
  {
    var cmp := RouteComparator(ByDate, order, collate);
    RouteComparatorConsistent(ByDate, order, collate);
    SortSorted(SearchRoutes(routes, searchText, lower), cmp);
  }

  /** Routes sorted by name: names in `localeCompare` order, reversed for descending. */
  lemma RoutesViewByName(
    routes: seq<Route>, searchText: string,
    order: SortOrder, lower: string -> string, collate: (string, string) -> int)
    requires TotalPreorder(collate)
    ensures var v := RoutesView(routes, searchText, ByName, order, lower, collate);
      forall i, j :: 0 <= i < j < |v| ==>
        if order == Asc then collate(v[i].name, v[j].name) <= 0 else collate(v[j].name, v[i].name) <= 0
  {
    var cmp := RouteComparator(ByName, order, collate);
    RouteComparatorConsistent(ByName, order, collate);
    SortSorted(SearchRoutes(routes, searchText, lower), cmp);
  }

  /** 'type' does not apply to routes: the filtered order is kept. */
  lemma RoutesViewByTypeKeepsOrder(
    routes: seq<Route>, searchText: string,
    order: SortOrder, lower: string -> string, collate: (string, string) -> int)
    ensures RoutesView(routes, searchText, ByType, order, lower, collate) == SearchRoutes(routes, searchText, lower)
  {
    SortOfSorted(SearchRoutes(routes, searchText, lower), RouteComparator(ByType, order, collate));
  }

  /**
   * When no two saved problems share a timestamp, newest-first is exactly
   * oldest-first read backwards.
   */
  lemma ProblemsViewDescReversesAsc(
    markers: seq<Marker>, searchText: string, selectedTypes: seq<string>,
    lower: string -> string, collate: (string, string) -> int)
    requires forall a, b :: a in markers && b in markers && a.date == b.date ==> a == b
    ensures ProblemsView(markers, searchText, selectedTypes, ByDate, Desc, lower, collate)
         == Reverse(ProblemsView(markers, searchText, selectedTypes, ByDate, Asc, lower, collate))
  {
    var data := FilterByTypes(SearchProblems(markers, searchText, lower), selectedTypes);
    var asc := ProblemsView(markers, searchText, selectedTypes, ByDate, Asc, lower, collate);
    var desc := ProblemsView(markers, searchText, selectedTypes, ByDate, Desc, lower, collate);
    var ascCmp := ProblemComparator(ByDate, Asc, collate);
    var descCmp := ProblemComparator(ByDate, Desc, collate);
    ProblemComparatorConsistent(ByDate, Asc, collate);
    ProblemComparatorConsistent(ByDate, Desc, collate);
    SortSorted(data, ascCmp);
    SortSorted(data, descCmp);
    ReverseSorted(asc, ascCmp, descCmp);
    ReverseMultiset(asc);
    DistinctDatesAntisymmetric(markers, desc, descCmp);
    SortedUnique(desc, Reverse(asc), descCmp);
  }

  /** Among problems with distinct timestamps, the date comparator has no ties. */
  lemma DistinctDatesAntisymmetric(markers: seq<Marker>, s: seq<Marker>, cmp: (Marker, Marker) -> int)
    requires forall a, b :: a in markers && b in markers && a.date == b.date ==> a == b
    requires forall m :: m in s ==> m in markers
    requires forall a, b :: cmp(a, b) <= 0 <==> b.date <= a.date
    ensures Antisymmetric(s, cmp)
  {
  }

  /**
   * Selecting every type that occurs filters nothing out: without search
   * text the tab shows every marker, in saved order when the sort key does
   * not apply.
   */
  lemma ProblemsViewAllTypes(
    markers: seq<Marker>, selectedTypes: seq<string>,
    sortBy: SortKey, order: SortOrder, lower: string -> string, collate: (string, string) -> int)
    requires forall m :: m in markers ==> m.problemType in selectedTypes
    ensures FilterByTypes(markers, selectedTypes) == markers
    ensures multiset(ProblemsView(markers, "", selectedTypes, sortBy, order, lower, collate)) == multiset(markers)
    ensures ProblemsView(markers, "", selectedTypes, ByName, order, lower, collate) == markers
  {
    if |selectedTypes| > 0 {
      FilterAllPass(markers, TypeMatcher(selectedTypes));
    }
    ProblemsViewByNameKeepsOrder(markers, "", selectedTypes, order, lower, collate);
  }

  // ----------------------------------------------------------------- loading

  /** `{...route, date: route.date || now, description: route.description || ''}` */
  function WithDefaults(r: Route, now: int): Route {
    r.(date := Some(RouteTimeOr(r, now)), description := Some(match r.description case Some(d) => d case None => ""))
  }

  function RouteTimeOr(r: Route, now: int): int {
    match r.date
    case Some(t) => t
    case None => now
  }

  /** The routes as loadData keeps them: every route dated, nothing else altered but defaults. */
  function NormalizeRoutes(routes: seq<Route>, now: int): (r: seq<Route>)
    ensures |r| == |routes|
    ensures forall i :: 0 <= i < |r| ==> r[i].date.Some? && r[i].description.Some?
    ensures forall i :: 0 <= i < |r| ==>
      && r[i].id == routes[i].id && r[i].coordinates == routes[i].coordinates && r[i].name == routes[i].name
      && (routes[i].date.Some? ==> r[i].date == routes[i].date)
      && (routes[i].date.None? ==> r[i].date == Some(now))
      && (routes[i].description.Some? ==> r[i].description == routes[i].description)
      && (routes[i].description.None? ==> r[i].description == Some(""))
  {
    seq(|routes|, i requires 0 <= i < |routes| => WithDefaults(routes[i], now))
  }

  // ------------------------------------------------------------------ screen

  /** The state of ReportsScreen and its handlers. */
  class Screen {
    var markers: seq<Marker>
    var routes: seq<Route>
    var activeTab: Tab
    var searchText: string
    var sortBy: SortKey
    var sortOrder: SortOrder
    var selectedTypes: seq<string>
    const store: KeyValueStore

    /** The selection has no repeats and every route carries a date. */
    ghost predicate Valid()
      reads this
    {
      && NoDuplicates(selectedTypes)
      && forall r :: r in routes ==> r.date.Some?
    }

    constructor (store: KeyValueStore)
      ensures Valid()
      ensures this.store == store
      ensures markers == [] && routes == [] && activeTab == ProblemsTab && searchText == ""
      ensures sortBy == ByDate && sortOrder == Desc && selectedTypes == []
    {
      this.store := store;
      markers, routes := [], [];
      activeTab, searchText := ProblemsTab, "";
      sortBy, sortOrder, selectedTypes := ByDate, Desc, [];
    }

    /**
     * `loadData`: both entries are read first; a failed read changes
     * nothing. A saved route list is taken with defaults filled in.
     */
    method LoadData(read: Outcome, now: int)
      requires Valid()
      modifies this
      ensures Valid()
      ensures activeTab == old(activeTab) && searchText == old(searchText) && sortBy == old(sortBy)
      ensures sortOrder == old(sortOrder) && selectedTypes == old(selectedTypes)
      ensures markers == if read == Succeeded && store.GetItem(MarkersKey).Some? && store.GetItem(MarkersKey).value.MarkerList?
                         then store.GetItem(MarkersKey).value.markers else old(markers)
      ensures routes == if read == Succeeded && store.GetItem(RoutesKey).Some? && store.GetItem(RoutesKey).value.RouteList?
                        then NormalizeRoutes(store.GetItem(RoutesKey).value.routes, now) else old(routes)
    {
      if read == Succeeded {
        var savedMarkers := store.GetItem(MarkersKey);
        var savedRoutes := store.GetItem(RoutesKey);
        if savedMarkers.Some? && savedMarkers.value.MarkerList? {
          markers := savedMarkers.value.markers;
        }
        if savedRoutes.Some? && savedRoutes.value.RouteList? {
          var loaded := NormalizeRoutes(savedRoutes.value.routes, now);
          assert forall r :: r in loaded ==> r.date.Some?;
          routes := loaded;
        }
      }
    }

    /** `handleSearch` */
    method HandleSearch(text: string)
      requires Valid()
      modifies this`searchText
      ensures Valid() && searchText == text
    {
      searchText := text;
    }

    /** `toggleTypeFilter` */
    method ToggleTypeFilter(t: string)
      requires Valid()
      modifies this`selectedTypes
      ensures Valid()
      ensures selectedTypes == ToggledTypes(old(selectedTypes), t)
    {
      ToggledTypesNoDuplicates(selectedTypes, t);
      selectedTypes := ToggledTypes(selectedTypes, t);
    }

    /**
     * The confirmed delete of a problem: the list loses that id, then the
     * new list is written; a failed write leaves the entry as it was.
     */
    method DeleteMarker(id: string, write: Outcome)
      requires Valid()
      modifies this`markers, store
      ensures Valid()
      ensures markers == WithoutId(old(markers), id, MarkerId)
      ensures store.entries == if write == Succeeded then old(store.entries)[MarkersKey := MarkerList(markers)]
                               else old(store.entries)
    {
      markers := WithoutId(markers, id, MarkerId);
      store.SetItem(MarkersKey, MarkerList(markers), write);
    }

    /** The confirmed delete of a route, as DeleteMarker. */
    method DeleteRoute(id: string, write: Outcome)
      requires Valid()
      modifies this`routes, store
      ensures Valid()
      ensures routes == WithoutId(old(routes), id, RouteId)
      ensures store.entries == if write == Succeeded then old(store.entries)[RoutesKey := RouteList(routes)]
                               else old(store.entries)
    {
      routes := WithoutId(routes, id, RouteId);
      store.SetItem(RoutesKey, RouteList(routes), write);
    }

    /**
     * `getFilteredAndSortedData`: the tab decides the kind of list; it
     * reads the state and changes none of it.
     */
    function FilteredAndSortedData(lower: string -> string, collate: (string, string) -> int): (r: ViewData)
      reads this
      ensures r.ProblemItems? <==> activeTab == ProblemsTab
      ensures r.ProblemItems? ==>
        forall m :: m in r.markers <==> m in markers && ProblemSelected(m, searchText, selectedTypes, lower)
      ensures r.RouteItems? ==>
        forall x :: x in r.routes <==> x in routes && RouteSelected(x, searchText, lower)
    {
      if activeTab == ProblemsTab then
        ProblemsViewContents(markers, searchText, selectedTypes, sortBy, sortOrder, lower, collate);
        ProblemItems(ProblemsView(markers, searchText, selectedTypes, sortBy, sortOrder, lower, collate))
      else
        RoutesViewContents(routes, searchText, sortBy, sortOrder, lower, collate);
        RouteItems(RoutesView(routes, searchText, sortBy, sortOrder, lower, collate))
    }
  }
}
