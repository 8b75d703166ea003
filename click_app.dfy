/** The click-to-draw page: each map click drops a marker and extends the
    polygon path; the last point can be undone; saving needs three points. */
module ClickApp {
  import opened Records

  /** The list without its last element; an empty list stays empty
      (`slice(0, -1)`). */
  function DropLast<T>(s: seq<T>): (r: seq<T>)
    ensures s == [] ==> r == []
    ensures s != [] ==> r + [s[|s| - 1]] == s
  {
    if s == [] then [] else s[..|s| - 1]
  }

  /** Undoing right after a click gives back the list before the click. */
  lemma UndoCancelsClick<T>(s: seq<T>, p: T)
    ensures DropLast(s + [p]) == s
  {
    assert (s + [p])[..|s|] == s;
  }

  /** The fewest points a saved polygon may have. */
  const MinPoints := 3

  /** The name every payload of this page carries. */
  const PayloadName := "My Polygon Area"

  /** What a save would submit. */
  datatype Payload = Payload(name: string, coordinates: seq<Coordinate>, markers: seq<Coordinate>)

  class App {
    var polygonPaths: seq<Coordinate>
    var markers: seq<Coordinate>

    /** The markers and the polygon path list the same points. */
    predicate InSync()
      reads this
    {
      markers == polygonPaths
    }

    /** The polygon overlay is drawn only once the path has three points. */
    predicate ShowsPolygon()
      reads this
    {
      |polygonPaths| >= MinPoints
    }

    constructor ()
      ensures markers == [] && polygonPaths == []
      ensures InSync()
    {
      markers, polygonPaths := [], [];
    }

    /** A map click appends the clicked point to both lists. */
    method MapClick(p: Coordinate)
      modifies this
      ensures markers == old(markers) + [p]
      ensures polygonPaths == old(polygonPaths) + [p]
      ensures old(InSync()) ==> InSync()
    {
      markers := markers + [p];
      polygonPaths := polygonPaths + [p];
    }

    /** Undo drops the last point of both lists (nothing on empty lists). */
    method UndoLastMarker()
      modifies this
      ensures markers == DropLast(old(markers))
      ensures polygonPaths == DropLast(old(polygonPaths))
      ensures old(InSync()) ==> InSync()
    {
      markers := DropLast(markers);
      polygonPaths := DropLast(polygonPaths);
    }

    /** The save guard: with fewer than three points no payload is built;
      otherwise the payload carries the fixed name, the path and the markers.
      A payload is built exactly when the overlay is shown. */
    method SavePolygon() returns (payload: Option<Payload>)
      ensures payload == None <==> |polygonPaths| < MinPoints
      ensures payload.Some? <==> ShowsPolygon()
      ensures payload.Some? ==> payload.value == Payload(PayloadName, polygonPaths, markers)
      ensures payload.Some? && InSync() ==> payload.value.coordinates == payload.value.markers
    {
      if |polygonPaths| < MinPoints {
        return None;
      }
      payload := Some(Payload(PayloadName, polygonPaths, markers));
    }
  }

  /** A click followed by an undo restores both lists exactly. */
  method ClickThenUndo(app: App, p: Coordinate)
    modifies app
    ensures app.markers == old(app.markers) && app.polygonPaths == old(app.polygonPaths)
  {
    app.MapClick(p);
    app.UndoLastMarker();
    UndoCancelsClick(old(app.markers), p);
    UndoCancelsClick(old(app.polygonPaths), p);
  }
}
