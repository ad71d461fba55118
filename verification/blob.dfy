/**
  BlobNode: an extruded footprint built from caller-ordered boundary
  coordinates. The node's anchor is the arithmetic-mean centroid of the
  coordinates at altitude `floor`; the footprint is a closed planar path
  whose vertices are found by distance and bearing from that anchor.
*/
module Blob {
  import opened Wrappers
  import opened Geo
  import opened Sums

  function Latitude(c: Coordinate): real { c.latitude }

  function Longitude(c: Coordinate): real { c.longitude }

  /**
    `BlobNode.centerPoint(coords:)`: each component is the reduce-sum of that
    component divided by the count. On an empty input the source divides
    0 by 0 and gets NaN; the model has no NaN and answers None there.
  */
  function CenterPoint(coords: seq<Coordinate>): (r: Option<Coordinate>)
    ensures r.Some? <==> |coords| > 0
    ensures r.Some? ==> r.value.latitude == Sum(coords, Latitude) / (|coords| as real)
    ensures r.Some? ==> r.value.longitude == Sum(coords, Longitude) / (|coords| as real)
  {
    if |coords| == 0 then None
    else
      var n := |coords| as real;
      Some(Coordinate(Reduce(coords, Latitude, 0.0) / n, Reduce(coords, Longitude, 0.0) / n))
  }

  /** The centroid of one point, or of a run of identical points, is that point. */
  lemma CenterOfIdenticalPoints(coords: seq<Coordinate>, p: Coordinate)
    requires |coords| > 0
    requires forall i :: 0 <= i < |coords| ==> coords[i] == p
    ensures CenterPoint(coords) == Some(p)
  {
    var n := |coords| as real;
    SumConstant(coords, Latitude, p.latitude);
    SumConstant(coords, Longitude, p.longitude);
    assert n * p.latitude / n == p.latitude;
    assert n * p.longitude / n == p.longitude;
    var c := CenterPoint(coords).value;
    assert c.latitude == p.latitude;
    assert c.longitude == p.longitude;
  }

  /** The centroid lies within any latitude/longitude box holding every input. */
  lemma CenterWithinBounds(coords: seq<Coordinate>, south: real, north: real, west: real, east: real)
    requires |coords| > 0
    requires forall i :: 0 <= i < |coords| ==> south <= coords[i].latitude <= north
    requires forall i :: 0 <= i < |coords| ==> west <= coords[i].longitude <= east
    ensures south <= CenterPoint(coords).value.latitude <= north
    ensures west <= CenterPoint(coords).value.longitude <= east
  {
    MeanBounds(coords, Latitude, south, north);
    MeanBounds(coords, Longitude, west, east);
  }

  /** Reordering the input does not move the centroid. */
  lemma CenterIgnoresOrder(coords: seq<Coordinate>, reordered: seq<Coordinate>)
    requires multiset(coords) == multiset(reordered)
    ensures CenterPoint(coords) == CenterPoint(reordered)
  {
    assert |coords| == |multiset(coords)| == |multiset(reordered)| == |reordered|;
    SumPermutation(coords, reordered, Latitude);
    SumPermutation(coords, reordered, Longitude);
  }

  /** CGPoint, meters from the anchor. */
  datatype Point = Point(x: real, y: real)

  /** The UIBezierPath commands the footprint is built from. */
  datatype PathCommand = MoveTo(to: Point) | AddLineTo(to: Point) | ClosePath

  /**
    The planar vertex of one boundary coordinate: distance d and bearing b
    are measured from the anchor to the coordinate taken at the anchor's
    altitude, and the vertex is (cos(90 - b) * d, sin(90 - b) * d). The
    angle 90 - b is in degrees but goes to `cos` and `sin` unconverted, as
    in the source, which read their argument as radians.
  */
  function Vertex(geo: Geodesy, trig: Trig, anchor: Location, coord: Coordinate): Point
  {
    var target := Location(coord, anchor.altitude);
    var distance := geo.distance(anchor, target);
    var theta := 90.0 - geo.bearing(anchor, target);
    Point(trig.cos(theta) * distance, 0.0 + trig.sin(theta) * distance)
  }

  /** The command for the vertex at `index`: a move for the first, a line for the rest. */
  function Command(index: nat, p: Point): PathCommand
  {
    if index == 0 then MoveTo(p) else AddLineTo(p)
  }

  /** Given sin^2 + cos^2 = 1, each vertex lies at distance d from the path origin. */
  lemma VertexOnCircle(geo: Geodesy, trig: Trig, anchor: Location, coord: Coordinate)
    requires Pythagorean(trig)
    ensures var p := Vertex(geo, trig, anchor, coord);
            var d := geo.distance(anchor, Location(coord, anchor.altitude));
            p.x * p.x + p.y * p.y == d * d
  {
  }

  /** A boundary coordinate equal to the anchor's maps to the path origin. */
  lemma AnchorVertexIsOrigin(geo: Geodesy, trig: Trig, anchor: Location)
    requires ZeroSelfDistance(geo)
    ensures Vertex(geo, trig, anchor, anchor.coordinate) == Point(0.0, 0.0)
  {
  }

  /**
    `BlobNode.pointsToPath(coords:)`: one move to the first vertex, one line
    to each later vertex in the caller's order, then one close. Nothing is
    sorted and no point count is rejected.
  */
  method PointsToPath(geo: Geodesy, trig: Trig, anchor: Location, coords: seq<Coordinate>)
    returns (path: seq<PathCommand>)
    ensures |path| == |coords| + 1
    ensures forall i :: 0 <= i < |coords| ==> path[i] == Command(i, Vertex(geo, trig, anchor, coords[i]))
    ensures path[|coords|] == ClosePath
  {
    path := [];
    var index := 0;
    while index < |coords|
      invariant 0 <= index <= |coords|
      invariant |path| == index
      invariant forall i :: 0 <= i < index ==> path[i] == Command(i, Vertex(geo, trig, anchor, coords[i]))
    {
      var point := Vertex(geo, trig, anchor, coords[index]);
      if index == 0 {
        path := path + [MoveTo(point)];
      } else {
        path := path + [AddLineTo(point)];
      }
      index := index + 1;
    }
    path := path + [ClosePath];
  }

  /** The SCNShape child: the footprint path extruded by `extrusionDepth`. */
  datatype ShapeNode = ShapeNode(
    path: seq<PathCommand>,
    extrusionDepth: real,
    name: string,
    pitchInPi: real,   // eulerAngles.x, as a multiple of pi
    yawInPi: real)     // eulerAngles.y, as a multiple of pi

  /** A BlobNode: its anchor location and its single shape child. */
  datatype BlobNode = BlobNode(location: Location, shape: ShapeNode)

  /**
    `BlobNode.init(coords:floor:height:color:)`. The anchor is the centroid
    at altitude `floor`; the one child is the footprint path extruded by
    `height`, toppled by pi/2 about x and turned by -pi/4 about y. Inputs
    of one or two points still build a node. None stands for the empty
    input, whose anchor the source computes as NaN.
  */
  method BuildBlob(geo: Geodesy, trig: Trig, coords: seq<Coordinate>, floor: real, height: real)
    returns (r: Option<BlobNode>)
    ensures r.None? <==> |coords| == 0
    ensures r.Some? ==> r.value.location == Location(CenterPoint(coords).value, floor)
    ensures r.Some? ==> |r.value.shape.path| == |coords| + 1
    ensures r.Some? ==> forall i :: 0 <= i < |coords| ==>
              r.value.shape.path[i] == Command(i, Vertex(geo, trig, r.value.location, coords[i]))
    ensures r.Some? ==> r.value.shape.path[|coords|] == ClosePath
    ensures r.Some? ==> r.value.shape.extrusionDepth == height
    ensures r.Some? ==> r.value.shape.pitchInPi == 0.5 && r.value.shape.yawInPi == -0.25
  {
    var center := CenterPoint(coords);
    if center.None? {
      return None;
    }
    var location := Location(center.value, floor);
    var path := PointsToPath(geo, trig, location, coords);
    r := Some(BlobNode(location, ShapeNode(path, height, "", 0.5, -0.25)));
  }

}
