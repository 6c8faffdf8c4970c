/**
 * MapView: the simpler map component. The route button starts a drawing
 * and, pressed again, finishes it; a finished route is named after the
 * length of the list it joins ("Rota 1", "Rota 2", ...).
 */
module MapView {
  import opened Domain
  import opened Decimal

  datatype Tool = MarkerTool | RouteTool

  /** The name `Rota ${routes.length + 1}` given to the route added after `count` routes. */
  function RouteName(count: nat): (name: string)
    ensures |name| > 5 && name[..5] == "Rota "
    ensures name[5..] == NatToString(count + 1)
  {
    "Rota " + NatToString(count + 1)
  }

  /** Routes added at different positions get different names. */
  lemma RouteNamesDistinct(i: nat, j: nat)
    requires i != j
    ensures RouteName(i) != RouteName(j)
  {
    if RouteName(i) == RouteName(j) {
      assert RouteName(i)[5..] == RouteName(j)[5..];
      NatToStringInjective(i + 1, j + 1);
    }
  }

  /** The route a finish records: no date, an empty description. */
  function FinishedRoute(id: string, coordinates: seq<Coord>, count: nat): Route {
    Route(id, coordinates, RouteName(count), Some(""), None)
  }

  datatype State = State(
    markers: seq<Marker>,
    routes: seq<Route>,
    modalVisible: bool,
    currentMarker: Option<Coord>,
    problemType: string,
    description: string,
    selectedTool: Tool,
    currentRoute: seq<Coord>,
    isDrawingRoute: bool)

  class Screen {
    var markers: seq<Marker>
    var routes: seq<Route>
    var modalVisible: bool
    var currentMarker: Option<Coord>
    var problemType: string
    var description: string
    var selectedTool: Tool
    var currentRoute: seq<Coord>
    var isDrawingRoute: bool

    ghost function Snapshot(): State
      reads this
    {
      State(markers, routes, modalVisible, currentMarker, problemType, description,
            selectedTool, currentRoute, isDrawingRoute)
    }

    /**
     * Outside a drawing the draft is empty; every route has at least two
     * points.
     */
    ghost predicate Valid()
      reads this
    {
      && (!isDrawingRoute ==> currentRoute == [])
      && (forall i :: 0 <= i < |routes| ==> |routes[i].coordinates| >= 2)
    }

    /** The initial `useState` values. */
    constructor ()
      ensures Valid()
      ensures Snapshot() == State([], [], false, None, "buraco", "", MarkerTool, [], false)
    {
      markers, routes := [], [];
      modalVisible, currentMarker := false, None;
      problemType, description := "buraco", "";
      selectedTool, currentRoute, isDrawingRoute := MarkerTool, [], false;
    }

    /**
     * `handleMapPress`: while drawing with the route tool the point goes
     * at the end of the draft; with the marker tool it opens the report
     * dialog for that point; otherwise nothing happens.
     */
    method HandleMapPress(p: Coord)
      requires Valid()
      modifies this
      ensures Valid()
      ensures old(selectedTool) == RouteTool && old(isDrawingRoute) ==>
        Snapshot() == old(Snapshot()).(currentRoute := old(currentRoute) + [p])
      ensures old(selectedTool) == MarkerTool ==>
        Snapshot() == old(Snapshot()).(currentMarker := Some(p), modalVisible := true)
      ensures old(selectedTool) == RouteTool && !old(isDrawingRoute) ==> Snapshot() == old(Snapshot())
    {
      if selectedTool == RouteTool && isDrawingRoute {
        currentRoute := currentRoute + [p];
      } else if selectedTool == MarkerTool {
        currentMarker := Some(p);
        modalVisible := true;
      }
    }

    /** `addMarker`: as on the main map screen. */
    method AddMarker(id: string, date: int)
      requires Valid()
      modifies this
      ensures Valid()
      ensures old(currentMarker).None? ==> Snapshot() == old(Snapshot())
      ensures old(currentMarker).Some? ==>
        Snapshot() == old(Snapshot()).(
          markers := old(markers) + [Marker(id, old(currentMarker).value, old(problemType), old(description), date)],
          modalVisible := false, description := "")
    {
      if currentMarker.Some? {
        markers := markers + [Marker(id, currentMarker.value, problemType, description, date)];
        modalVisible := false;
        description := "";
      }
    }

    /** `startDrawingRoute`: route tool, drawing, empty draft. */
    method StartDrawingRoute()
      requires Valid()
      modifies this
      ensures Valid()
      ensures Snapshot() == old(Snapshot()).(selectedTool := RouteTool, isDrawingRoute := true, currentRoute := [])
    {
      selectedTool := RouteTool;
      isDrawingRoute := true;
      currentRoute := [];
    }

    /**
     * `finishDrawingRoute`: a draft of fewer than two points is refused
     * and kept; otherwise it becomes the next numbered route, drawing
     * stops and the marker tool is selected.
     */
    method FinishDrawingRoute(id: string)
      requires Valid()
      modifies this
      ensures Valid()
      ensures |old(currentRoute)| < 2 ==> Snapshot() == old(Snapshot())
      ensures |old(currentRoute)| >= 2 ==>
        Snapshot() == old(Snapshot()).(
          routes := old(routes) + [FinishedRoute(id, old(currentRoute), |old(routes)|)],
          isDrawingRoute := false, currentRoute := [], selectedTool := MarkerTool)
    {
      if |currentRoute| < 2 {
        return;
      }
      routes := routes + [FinishedRoute(id, currentRoute, |routes|)];
      isDrawingRoute := false;
      currentRoute := [];
      selectedTool := MarkerTool;
    }

    /** The route button: finishes the drawing in progress, or starts one. */
    method PressRouteButton(id: string)
      requires Valid()
      modifies this
      ensures Valid()
      ensures !old(isDrawingRoute) ==>
        Snapshot() == old(Snapshot()).(selectedTool := RouteTool, isDrawingRoute := true, currentRoute := [])
      ensures old(isDrawingRoute) && |old(currentRoute)| < 2 ==> Snapshot() == old(Snapshot())
      ensures old(isDrawingRoute) && |old(currentRoute)| >= 2 ==>
        Snapshot() == old(Snapshot()).(
          routes := old(routes) + [FinishedRoute(id, old(currentRoute), |old(routes)|)],
          isDrawingRoute := false, currentRoute := [], selectedTool := MarkerTool)
    {
      if isDrawingRoute {
        FinishDrawingRoute(id);
      } else {
        StartDrawingRoute();
      }
    }

    /** The marker button: selects the marker tool and nothing else. */
    method SelectMarkerTool()
      requires Valid()
      modifies this
      ensures Valid()
      ensures Snapshot() == old(Snapshot()).(selectedTool := MarkerTool)
    {
      selectedTool := MarkerTool;
    }
  }
}
