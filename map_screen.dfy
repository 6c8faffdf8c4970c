/**
 * MapScreen: the map on which problems are reported and routes drawn.
 * Each handler runs as one step; the `useState` variables are the fields
 * of Screen.
 *
 * React applies the setters of one handler together after it returns,
 * and a handler sees the state as it was when it started. So the route
 * finished by a tap on the last point is the draft as it was BEFORE that
 * tap, and the tool stays 'route' (finishDrawingRoute does not reset it).
 */
module MapScreen {
  import opened Domain

  datatype Tool = MarkerTool | RouteTool

  /**
   * The "tapped on the last point" test: the Euclidean distance between
   * the two points, in degrees, is below 0.0001 (compared squared).
   */
  predicate Near(p: Coord, q: Coord)
    ensures p == q ==> Near(p, q)
    ensures Near(p, q) ==> -0.0001 < p.latitude - q.latitude < 0.0001
                           && -0.0001 < p.longitude - q.longitude < 0.0001
  {
    var dLat := p.latitude - q.latitude;
    var dLon := p.longitude - q.longitude;
    SquareBound(dLat, dLon);
    SquareBound(dLon, dLat);
    dLat * dLat + dLon * dLon < 0.00000001
  }

  /** A sum of two squares below 0.0001 squared bounds each term by 0.0001. */
  lemma SquareBound(x: real, y: real)
    ensures x * x + y * y < 0.00000001 ==> -0.0001 < x < 0.0001
  {
    if x >= 0.0001 {
      assert x * x >= 0.0001 * x >= 0.00000001;
    } else if x <= -0.0001 {
      assert x * x >= -0.0001 * x >= 0.00000001;
    }
  }

  /** The characters String.prototype.trim removes: white space and line terminators. */
  predicate IsWhiteSpace(c: char) {
    || c == ' ' || '\t' <= c <= '\r'
    || c == '\U{00A0}' || c == '\U{1680}' || '\U{2000}' <= c <= '\U{200A}'
    || c == '\U{2028}' || c == '\U{2029}' || c == '\U{202F}' || c == '\U{205F}'
    || c == '\U{3000}' || c == '\U{FEFF}'
  }

  /**
   * Every character of `s` is white space, so `s.trim() === ''`: the name
   * has no visible character (see Trim).
   */
  predicate IsBlank(s: string) {
    forall i :: 0 <= i < |s| ==> IsWhiteSpace(s[i])
  }

  /** `s` with its leading white space removed: a suffix of `s`. */
  function TrimStart(s: string): (r: string)
    ensures |r| <= |s| && r == s[|s| - |r|..]
    ensures IsBlank(s[..|s| - |r|])
    ensures r == [] || !IsWhiteSpace(r[0])
    ensures r == [] <==> IsBlank(s)
    decreases |s|
  {
    if s != [] && IsWhiteSpace(s[0]) then TrimStart(s[1..]) else s
  }

  /** `s` with its trailing white space removed: a prefix of `s`. */
  function TrimEnd(s: string): (r: string)
    ensures |r| <= |s| && r == s[..|r|]
    ensures IsBlank(s[|r|..])
    ensures r == [] || !IsWhiteSpace(r[|r| - 1])
    ensures r == [] <==> IsBlank(s)
    decreases |s|
  {
    if s != [] && IsWhiteSpace(s[|s| - 1]) then TrimEnd(s[..|s| - 1]) else s
  }

  /**
   * `s.trim()`: white space removed from both ends, so what is left is
   * empty or starts and ends with a visible character; it is empty
   * exactly when `s` is blank.
   */
  function Trim(s: string): (r: string)
    ensures |r| <= |s|
    ensures r == [] || (!IsWhiteSpace(r[0]) && !IsWhiteSpace(r[|r| - 1]))
    ensures r == [] <==> IsBlank(s)
  {
    var t := TrimStart(s);
    var r := TrimEnd(t);
    assert r != [] ==> r[0] == t[0];
    r
  }

  /** The route a finish or save records: the draft, named and dated. */
  function NewRoute(id: string, coordinates: seq<Coord>, name: string, description: string, date: int): Route {
    Route(id, coordinates, name, Some(description), Some(date))
  }

  /**
   * Whether a tap at `p` while drawing `draft` finishes the route: the
   * tapped point is near the last one, and the draft as the handler sees
   * it already has two points.
   */
  predicate TapFinishes(draft: seq<Coord>, p: Coord) {
    |draft| >= 2 && Near(p, draft[|draft| - 1])
  }

  /** All the state of the screen at one moment. */
  datatype State = State(
    markers: seq<Marker>,
    routes: seq<Route>,
    modalVisible: bool,
    routeModalVisible: bool,
    currentMarker: Option<Coord>,
    problemType: string,
    description: string,
    routeName: string,
    routeDescription: string,
    isDrawingRoute: bool,
    currentRoute: Option<seq<Coord>>,
    selectedTool: Tool)

  class Screen {
    var markers: seq<Marker>
    var routes: seq<Route>
    var modalVisible: bool
    var routeModalVisible: bool
    var currentMarker: Option<Coord>
    var problemType: string
    var description: string
    var routeName: string
    var routeDescription: string
    var isDrawingRoute: bool
    var currentRoute: Option<seq<Coord>>
    var selectedTool: Tool

    ghost function Snapshot(): State
      reads this
    {
      State(markers, routes, modalVisible, routeModalVisible, currentMarker, problemType,
            description, routeName, routeDescription, isDrawingRoute, currentRoute, selectedTool)
    }

    /** A route is being drawn exactly when there is a draft. */
    ghost predicate Valid()
      reads this
    {
      isDrawingRoute <==> currentRoute.Some?
    }

    /** The initial `useState` values. */
    constructor ()
      ensures Valid()
      ensures Snapshot() == State([], [], false, false, None, "buraco", "", "", "", false, None, MarkerTool)
    {
      markers, routes := [], [];
      modalVisible, routeModalVisible := false, false;
      currentMarker := None;
      problemType, description := "buraco", "";
      routeName, routeDescription := "", "";
      isDrawingRoute, currentRoute := false, None;
      selectedTool := MarkerTool;
    }

    /**
     * `handleMapPress`. While drawing, the point goes at the end of the
     * draft, unless it lands near the last point of a draft of two or more
     * points, which finishes that draft as it was; with the marker tool it
     * opens the report dialog for that point; otherwise nothing happens.
     * `id` and `date` are what Date.now() gives a finished route.
     */
    method HandleMapPress(p: Coord, id: string, date: int)
      requires Valid()
      modifies this
      ensures Valid()
      ensures old(selectedTool) == MarkerTool ==>
        Snapshot() == old(Snapshot()).(currentMarker := Some(p), modalVisible := true)
      ensures old(selectedTool) == RouteTool && !old(isDrawingRoute) ==> Snapshot() == old(Snapshot())
      ensures old(selectedTool) == RouteTool && old(isDrawingRoute) && !TapFinishes(old(currentRoute).value, p) ==>
        Snapshot() == old(Snapshot()).(currentRoute := Some(old(currentRoute).value + [p]))
      ensures old(selectedTool) == RouteTool && old(isDrawingRoute) && TapFinishes(old(currentRoute).value, p) ==>
        Snapshot() == old(Snapshot()).(
          routes := old(routes) + [NewRoute(id, old(currentRoute).value, old(routeName), old(routeDescription), date)],
          routeModalVisible := false, isDrawingRoute := false, currentRoute := None,
          routeName := "", routeDescription := "")
    {
      if selectedTool == RouteTool && isDrawingRoute && currentRoute.Some? {
        var draft := currentRoute.value;
        var newCoordinates := draft + [p];
        currentRoute := Some(newCoordinates);
        if |newCoordinates| > 1 && Near(newCoordinates[|newCoordinates| - 1], newCoordinates[|newCoordinates| - 2]) {
          // finishDrawingRoute, run with the draft it closed over
          if |draft| >= 2 {
            routes := routes + [NewRoute(id, draft, routeName, routeDescription, date)];
            routeModalVisible := false;
            isDrawingRoute := false;
            currentRoute := None;
            routeName := "";
            routeDescription := "";
          }
        }
      } else if selectedTool == MarkerTool {
        currentMarker := Some(p);
        modalVisible := true;
      }
    }

    /**
     * `addMarker`: with a tapped point, one marker built from the point
     * and the dialog's type and description goes at the end of the list,
     * the dialog closes and its description is cleared.
     */
    method AddMarker(id: string, date: int)
      requires Valid()
      modifies this
      ensures Valid()
      ensures old(currentMarker).None? ==> Snapshot() == old(Snapshot())
      ensures old(currentMarker).Some? ==>
        Snapshot() == old(Snapshot()).(
          markers := old(markers) + [Marker(id, old(currentMarker).value, old(problemType), old(description), date)],
          modalVisible := false, description := "")
    {
      if currentMarker.Some? {
        var newMarker := Marker(id, currentMarker.value, problemType, description, date);
        markers := markers + [newMarker];
        modalVisible := false;
        description := "";
      }
    }

    /** `startDrawingRoute`: route tool, drawing, empty draft. */
    method StartDrawingRoute()
      requires Valid()
      modifies this
      ensures Valid()
      ensures Snapshot() == old(Snapshot()).(selectedTool := RouteTool, isDrawingRoute := true, currentRoute := Some([]))
    {
      selectedTool := RouteTool;
      isDrawingRoute := true;
      currentRoute := Some([]);
    }

    /**
     * `finishDrawingRoute`: a draft of fewer than two points is refused;
     * otherwise it becomes one new route and drawing stops. The tool is
     * not reset.
     */
    method FinishDrawingRoute(id: string, date: int)
      requires Valid()
      modifies this
      ensures Valid()
      ensures old(currentRoute).None? || |old(currentRoute).value| < 2 ==> Snapshot() == old(Snapshot())
      ensures old(currentRoute).Some? && |old(currentRoute).value| >= 2 ==>
        Snapshot() == old(Snapshot()).(
          routes := old(routes) + [NewRoute(id, old(currentRoute).value, old(routeName), old(routeDescription), date)],
          routeModalVisible := false, isDrawingRoute := false, currentRoute := None,
          routeName := "", routeDescription := "")
      ensures |routes| == |old(routes)| + 1 ==> |routes[|routes| - 1].coordinates| >= 2
    {
      if currentRoute.None? || |currentRoute.value| < 2 {
        return;
      }
      routes := routes + [NewRoute(id, currentRoute.value, routeName, routeDescription, date)];
      routeModalVisible := false;
      isDrawingRoute := false;
      currentRoute := None;
      routeName := "";
      routeDescription := "";
    }

    /**
     * `saveRoute`: needs a draft and a name that is not blank; it does not
     * check the number of points. It records the route, stops drawing and
     * selects the marker tool.
     */
    method SaveRoute(id: string, date: int)
      requires Valid()
      modifies this
      ensures Valid()
      ensures old(currentRoute).None? || IsBlank(old(routeName)) ==> Snapshot() == old(Snapshot())
      ensures old(currentRoute).Some? && !IsBlank(old(routeName)) ==>
        Snapshot() == old(Snapshot()).(
          routes := old(routes) + [NewRoute(id, old(currentRoute).value, old(routeName), old(routeDescription), date)],
          routeModalVisible := false, isDrawingRoute := false, currentRoute := None,
          routeName := "", routeDescription := "", selectedTool := MarkerTool)
    {
      if currentRoute.None? {
        return;
      }
      if IsBlank(routeName) {
        return;
      }
      routes := routes + [NewRoute(id, currentRoute.value, routeName, routeDescription, date)];
      routeModalVisible := false;
      isDrawingRoute := false;
      currentRoute := None;
      routeName := "";
      routeDescription := "";
      selectedTool := MarkerTool;
    }

    /** `cancelRoute`: drops the draft and goes back to the marker tool; saved routes stay. */
    method CancelRoute()
      requires Valid()
      modifies this
      ensures Valid()
      ensures Snapshot() == old(Snapshot()).(
        routeModalVisible := false, isDrawingRoute := false, currentRoute := None, selectedTool := MarkerTool)
    {
      routeModalVisible := false;
      isDrawingRoute := false;
      currentRoute := None;
      selectedTool := MarkerTool;
    }

    /** The marker button: selects the marker tool and nothing else, even mid-route. */
    method SelectMarkerTool()
      requires Valid()
      modifies this
      ensures Valid()
      ensures Snapshot() == old(Snapshot()).(selectedTool := MarkerTool)
    {
      selectedTool := MarkerTool;
    }
  }
}
