/** The polygon map tool (`google_maps_polygons.py`): the step of
    `calculate_polygon_area` that closes the vertex list in place, the record
    kept for each polygon, and the centre and colours `create_google_map`
    hands to the drawing library. The area itself is an input (see README). */
module Polygons {
  import opened Wrappers

  /** A `(lat, lon)` pair as entered by the user. */
  datatype Point = Point(lat: real, lon: real)

  // ------------------------------------------------------------ closing the ring

  /** A vertex list is closed when its last vertex repeats its first. */
  predicate IsClosed(v: seq<Point>)
    requires v != []
  {
    v[0] == v[|v| - 1]
  }

  /** The vertex list after the closing step, for a non-empty list. */
  function ClosedRing(v: seq<Point>): (r: seq<Point>)
    requires v != []
    ensures |v| <= |r| <= |v| + 1 && r[..|v|] == v
    ensures IsClosed(r) && r[0] == v[0]
  {
    if v[0] != v[|v| - 1] then v + [v[0]] else v
  }

  /** An already closed list is left as it is; otherwise exactly one copy of the first vertex is added. */
  lemma ClosedRingAppends(v: seq<Point>)
    requires v != []
    ensures IsClosed(v) <==> ClosedRing(v) == v
    ensures !IsClosed(v) ==> ClosedRing(v) == v + [v[0]]
  {
    if !IsClosed(v) {
      assert |ClosedRing(v)| != |v|;
    }
  }

  /** Closing twice is closing once. */
  lemma ClosedRingIdempotent(v: seq<Point>)
    requires v != []
    ensures ClosedRing(ClosedRing(v)) == ClosedRing(v)
  {
    ClosedRingAppends(ClosedRing(v));
  }

  /** The list object `calculate_polygon_area` receives and appends to; the caller keeps
      the same object in its polygon record. */
  class VertexList {
    var items: seq<Point>

    constructor (items: seq<Point>)
      ensures this.items == items
    {
      this.items := items;
    }

    /** `if vertices[0] != vertices[-1]: vertices.append(vertices[0])`; on an empty list
        `vertices[0]` raises IndexError, reported here as `ok == false`. */
    method CloseRing() returns (ok: bool)
      modifies this
      ensures ok <==> old(items) != []
      ensures ok ==> items == ClosedRing(old(items))
      ensures !ok ==> items == old(items)
    {
      if items == [] {
        return false;
      }
      if items[0] != items[|items| - 1] {
        items := items + [items[0]];
      }
      return true;
    }
  }

  // ------------------------------------------------------------ building the polygon

  /** A linear ring needs at least four coordinates: `Polygon(vertices)` raises ValueError on a
      shorter closed list, outside the `try`. */
  const MinRingLength: nat := 4

  /** `Polygon(vertices)` accepts the closed list: exactly when four or more vertices were entered,
      or three that are not already closed. */
  predicate Buildable(v: seq<Point>): (r: bool)
    requires v != []
    ensures r <==> |v| >= 4 || (|v| == 3 && !IsClosed(v))
  {
    ClosedRingAppends(v);
    |ClosedRing(v)| >= MinRingLength
  }

  // ------------------------------------------------------------ area and the polygon record

  /** What the geometry library reports for a closed vertex list: an invalid polygon, an
      exception while converting the area, or the area in square metres. */
  datatype Measured = InvalidPolygon | MeasureFailed | SquareMeters(value: real)

  /** The value `calculate_polygon_area` returns for a measurement: 0 for an invalid polygon or
      a failed conversion. */
  function AreaOf(m: Measured): (area: real)
    ensures m.SquareMeters? ==> area == m.value
    ensures !m.SquareMeters? ==> area == 0.0
  {
    match m
    case SquareMeters(a) => a
    case _ => 0.0
  }

  /** `calculate_polygon_area`: close the list in place, build the polygon, then measure the
      closed list. `None` when an exception ends the program: the IndexError of an empty list
      (the list is left as it is) or the ValueError of a ring that is too short (the list is
      already closed). */
  method CalculatePolygonArea(vertices: VertexList, measure: seq<Point> -> Measured) returns (area: Option<real>)
    modifies vertices
    ensures area.Some? <==> old(vertices.items) != [] && Buildable(old(vertices.items))
    ensures old(vertices.items) != [] ==> vertices.items == ClosedRing(old(vertices.items))
    ensures old(vertices.items) == [] ==> vertices.items == old(vertices.items)
    ensures area.Some? ==> area.value == AreaOf(measure(vertices.items))
  {
    var ok := vertices.CloseRing();
    if !ok || |vertices.items| < MinRingLength {
      return None;
    }
    return Some(AreaOf(measure(vertices.items)));
  }

  /** One entry of `polygons`. `color` is `None` for a record without the "color" key. */
  datatype Polygon = Polygon(name: string, coordinates: seq<Point>, color: Option<string>, area: real)

  /** The colour prompt: an empty answer means "blue". */
  function ChosenColor(answer: string): (color: string)
    ensures color != []
    ensures answer != [] ==> color == answer
    ensures answer == [] ==> color == "blue"
  {
    if answer == [] then "blue" else answer
  }

  /** One round of `get_polygons_from_user` after the name, vertices and colour have been read:
      measure (closing `coordinates` in place) and append the record. The record holds the list
      object itself, so its coordinates are the closed list. */
  method AddPolygon(polygons: seq<Polygon>, name: string, coordinates: VertexList, colorAnswer: string,
                    measure: seq<Point> -> Measured)
    returns (result: Option<seq<Polygon>>)
    modifies coordinates
    ensures result.Some? <==> old(coordinates.items) != [] && Buildable(old(coordinates.items))
    ensures old(coordinates.items) != [] ==> coordinates.items == ClosedRing(old(coordinates.items))
    ensures old(coordinates.items) == [] ==> coordinates.items == old(coordinates.items)
    ensures result.Some? ==>
      result.value == polygons + [Polygon(name, coordinates.items, Some(ChosenColor(colorAnswer)),
                                             AreaOf(measure(coordinates.items)))]
  {
    var area := CalculatePolygonArea(coordinates, measure);
    if area.None? {
      return None;
    }
    var record := Polygon(name, coordinates.items, Some(ChosenColor(colorAnswer)), area.value);
    return Some(polygons + [record]);
  }

  // ------------------------------------------------------------ the map

  /** `polygon.get("color", "blue")`. */
  function DrawColor(p: Polygon): (color: string)
    ensures p.color.None? ==> color == "blue"
    ensures p.color.Some? ==> color == p.color.value
  {
    p.color.GetOr("blue")
  }

  /** The centre of the map: the first vertex of the first polygon, or (0, 0) without polygons.
      `None` when the first polygon has no vertex (the IndexError). */
  function MapCenter(polygons: seq<Polygon>): (center: Option<Point>)
    ensures polygons == [] ==> center == Some(Point(0.0, 0.0))
    ensures polygons != [] ==>
      (center.Some? <==> polygons[0].coordinates != [])
      && (center.Some? ==> center.value == polygons[0].coordinates[0])
  {
    if polygons == [] then Some(Point(0.0, 0.0))
    else if polygons[0].coordinates == [] then None
    else Some(polygons[0].coordinates[0])
  }

  /** `zip(*coordinates)`: the latitudes and the longitudes; unpacking raises on an empty list. */
  function Unzip(coordinates: seq<Point>): (r: Option<(seq<real>, seq<real>)>)
    ensures r.Some? <==> coordinates != []
    ensures r.Some? ==> |r.value.0| == |coordinates| == |r.value.1|
  {
    if coordinates == [] then None
    else Some((seq(|coordinates|, k requires 0 <= k < |coordinates| => coordinates[k].lat),
               seq(|coordinates|, k requires 0 <= k < |coordinates| => coordinates[k].lon)))
  }

  function Zip(lats: seq<real>, lons: seq<real>): (coordinates: seq<Point>)
    requires |lats| == |lons|
    ensures |coordinates| == |lats|
  {
    seq(|lats|, k requires 0 <= k < |lats| => Point(lats[k], lons[k]))
  }

  /** Unzipping loses nothing: zipping the two columns back gives the vertex list. */
  lemma UnzipZip(coordinates: seq<Point>)
    requires coordinates != []
    ensures var r := Unzip(coordinates).value; Zip(r.0, r.1) == coordinates
  {
  }

  /** One `gmap.polygon(lats, lngs, color=...)` call. */
  datatype Shape = Shape(lats: seq<real>, lons: seq<real>, color: string)

  /** The calls `create_google_map` makes: the centre and one shape per polygon, in order. */
  datatype MapPlan = MapPlan(center: Point, shapes: seq<Shape>)

  /** The shape drawn for one polygon. */
  function ShapeOf(p: Polygon): (s: Option<Shape>)
    ensures s.Some? <==> p.coordinates != []
    ensures s.Some? ==> |s.value.lats| == |s.value.lons| && Zip(s.value.lats, s.value.lons) == p.coordinates && s.value.color == DrawColor(p)
  {
    match Unzip(p.coordinates)
    case None => None
    case Some(cols) =>
      UnzipZip(p.coordinates);
      Some(Shape(cols.0, cols.1, DrawColor(p)))
  }

  /** What `create_google_map` draws; `None` when some polygon has no vertex. */
  function MapSpec(polygons: seq<Polygon>): (plan: Option<MapPlan>)
    ensures plan.Some? <==> forall k :: 0 <= k < |polygons| ==> polygons[k].coordinates != []
  {
    if exists k :: 0 <= k < |polygons| && polygons[k].coordinates == [] then None
    else
      Some(MapPlan(MapCenter(polygons).value,
                   seq(|polygons|, k requires 0 <= k < |polygons| => ShapeOf(polygons[k]).value)))
  }

  /** Every drawn shape is its polygon's vertex list in its polygon's colour, in order, and the
      map is centred on the very first vertex. */
  lemma MapSpecDraws(polygons: seq<Polygon>)
    requires MapSpec(polygons).Some?
    ensures var plan := MapSpec(polygons).value;
      |plan.shapes| == |polygons|
      && (polygons != [] ==> plan.center == polygons[0].coordinates[0])
      && forall k :: 0 <= k < |polygons| ==>
           Zip(plan.shapes[k].lats, plan.shapes[k].lons) == polygons[k].coordinates
           && plan.shapes[k].color == DrawColor(polygons[k])
  {
  }

  /** `create_google_map`: pick the centre, then draw each polygon in turn. */
  method CreateGoogleMap(polygons: seq<Polygon>) returns (plan: Option<MapPlan>)
    ensures plan == MapSpec(polygons)
  {
    var center := MapCenter(polygons);
    if center.None? {
      return None;
    }
    var shapes: seq<Shape> := [];
    for i := 0 to |polygons|
      invariant |shapes| == i
      invariant forall k :: 0 <= k < i ==> ShapeOf(polygons[k]) == Some(shapes[k])
    {
      var shape := ShapeOf(polygons[i]);
      if shape.None? {
        return None;
      }
      shapes := shapes + [shape.value];
    }
    assert shapes == seq(|polygons|, k requires 0 <= k < |polygons| => ShapeOf(polygons[k]).value);
    return Some(MapPlan(center.value, shapes));
  }

  /** Polygons entered through `AddPolygon` are drawn as entered, closed, in the colour chosen at
      the prompt ("blue" for an empty answer), and the map is centred on the first vertex entered. */
  lemma EnteredPolygonsDrawn(polygons: seq<Polygon>, entered: seq<seq<Point>>, answers: seq<string>)
    requires |polygons| == |entered| == |answers|
    requires forall k :: 0 <= k < |polygons| ==>
      entered[k] != [] && polygons[k].coordinates == ClosedRing(entered[k])
      && polygons[k].color == Some(ChosenColor(answers[k]))
    ensures MapSpec(polygons).Some?
    ensures var plan := MapSpec(polygons).value;
      (polygons != [] ==> plan.center == entered[0][0])
      && forall k :: 0 <= k < |polygons| ==>
           plan.shapes[k].color == (if answers[k] == [] then "blue" else answers[k])
           && Zip(plan.shapes[k].lats, plan.shapes[k].lons) == ClosedRing(entered[k])
  {
    MapSpecDraws(polygons);
  }
}
