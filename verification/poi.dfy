/**
  The pure pieces of the demo controller POIViewController: the
  coordinate midpoint, the route-to-nodes segmentation with its
  "retry until a location exists" guard, the heading normalisation shown
  in the info label, and the dispatch of a screen touch.
*/
module Poi {
  import opened Wrappers
  import opened Geo
  import opened Views

  /** `midPoint(_:_:)`: the componentwise average of two coordinates. */
  function MidPoint(first: Coordinate, second: Coordinate): (r: Coordinate)
    ensures r.latitude - first.latitude == second.latitude - r.latitude
    ensures r.longitude - first.longitude == second.longitude - r.longitude
  {
    Coordinate((first.latitude + second.latitude) / 2.0, (first.longitude + second.longitude) / 2.0)
  }

  lemma MidPointSymmetric(a: Coordinate, b: Coordinate)
    ensures MidPoint(a, b) == MidPoint(b, a)
  {
  }

  lemma MidPointOfSamePoint(p: Coordinate)
    ensures MidPoint(p, p) == p
  {
  }

  // ---------------------------------------------------------------------
  // Route segmentation (addSceneModels)
  // ---------------------------------------------------------------------

  /**
    A node built for a route: a joint (a torus) at a polyline point, or a
    segment (a box) at the midpoint of two consecutive points, whose box
    is as long as their distance and whose child is turned by `yaw`
    radians about y.
  */
  datatype RouteNode =
    | JointNode(location: Location)
    | SegmentNode(location: Location, length: real, yaw: real)

  /** One route: the polyline points of each of its steps. */
  datatype Route = Route(steps: seq<seq<Coordinate>>)

  /**
    The segment from a to b: a box anchored at their midpoint, as long as
    their distance, its child turned by the negated bearing in radians.
    `toRadians` is `Float.degreesToRadians`, which is not part of this model.
  */
  function SegmentBetween(geo: Geodesy, toRadians: real -> real, a: Coordinate, b: Coordinate, altitude: real)
    : RouteNode
  {
    var current, next := Location(a, altitude), Location(b, altitude);
    SegmentNode(Location(MidPoint(a, b), altitude),
                geo.distance(current, next),
                toRadians(0.0 - geo.bearing(current, next)))
  }

  /**
    The nodes for one step's polyline of n points: for each i below n - 1,
    a joint at point i and then the segment from point i to point i + 1,
    every location at the current altitude.
  */
  function PolylineNodes(geo: Geodesy, toRadians: real -> real, points: seq<Coordinate>, altitude: real)
    : (r: seq<RouteNode>)
    ensures |points| >= 1 ==> |r| == 2 * (|points| - 1)
    ensures forall k :: 0 <= k < |r| ==> r[k].location.altitude == altitude
    decreases |points|
  {
    if |points| < 2 then []
    else
      [JointNode(Location(points[0], altitude)), SegmentBetween(geo, toRadians, points[0], points[1], altitude)]
      + PolylineNodes(geo, toRadians, points[1..], altitude)
  }

  /**
    Node 2i is the joint at point i and node 2i + 1 the segment from point
    i to point i + 1; so the last point gets no joint of its own.
  */
  lemma {:induction false} PolylineNodesAt(geo: Geodesy, toRadians: real -> real, points: seq<Coordinate>,
                                           altitude: real, i: int)
    requires 0 <= i < |points| - 1
    ensures PolylineNodes(geo, toRadians, points, altitude)[2 * i] == JointNode(Location(points[i], altitude))
    ensures PolylineNodes(geo, toRadians, points, altitude)[2 * i + 1]
            == SegmentBetween(geo, toRadians, points[i], points[i + 1], altitude)
    decreases i
  {
    if i > 0 {
      PolylineNodesAt(geo, toRadians, points[1..], altitude, i - 1);
      assert points[1..][i - 1] == points[i] && points[1..][i] == points[i + 1];
    }
  }

  /** The steps of every route, in route order. */
  function AllSteps(routes: seq<Route>): seq<seq<Coordinate>>
  {
    if |routes| == 0 then [] else routes[0].steps + AllSteps(routes[1..])
  }

  /** Some step's polyline has no points. */
  predicate HasEmptyStep(steps: seq<seq<Coordinate>>)
  {
    exists k :: 0 <= k < |steps| && |steps[k]| == 0
  }

  /** How many nodes a step's polyline yields: a joint and a segment per point but the last. */
  function StepNodeCount(points: seq<Coordinate>): nat
  {
    if |points| == 0 then 0 else 2 * (|points| - 1)
  }

  function StepNodeCounts(steps: seq<seq<Coordinate>>): (r: seq<nat>)
    ensures |r| == |steps| && forall k :: 0 <= k < |steps| ==> r[k] == StepNodeCount(steps[k])
  {
    seq(|steps|, k requires 0 <= k < |steps| => StepNodeCount(steps[k]))
  }

  /** The polyline nodes of each step, one list per step. */
  function PerStepNodes(geo: Geodesy, toRadians: real -> real, steps: seq<seq<Coordinate>>, altitude: real)
    : (r: seq<seq<RouteNode>>)
    ensures |r| == |steps| && forall k :: 0 <= k < |steps| ==> r[k] == PolylineNodes(geo, toRadians, steps[k], altitude)
  {
    seq(|steps|, k requires 0 <= k < |steps| => PolylineNodes(geo, toRadians, steps[k], altitude))
  }

  /**
    With no empty step, the joined per-step lists hold step k's polyline
    nodes as one block, right after the blocks of the steps before it.
  */
  lemma RouteNodesInStepOrder(geo: Geodesy, toRadians: real -> real, steps: seq<seq<Coordinate>>, altitude: real)
    requires !HasEmptyStep(steps)
    ensures var nodes, counts := Flatten(PerStepNodes(geo, toRadians, steps, altitude)), StepNodeCounts(steps);
            && |nodes| == SumNat(counts)
            && forall k :: 0 <= k < |steps| ==>
                 && SumNat(counts[..k]) + counts[k] <= |nodes|
                 && nodes[SumNat(counts[..k]) .. SumNat(counts[..k]) + counts[k]]
                    == PolylineNodes(geo, toRadians, steps[k], altitude)
  {
    var perStep := PerStepNodes(geo, toRadians, steps, altitude);
    var counts := StepNodeCounts(steps);
    assert Lengths(perStep) == counts;
    FlattenLength(perStep);
    forall k | 0 <= k < |steps|
      ensures && SumNat(counts[..k]) + counts[k] <= |Flatten(perStep)|
              && Flatten(perStep)[SumNat(counts[..k]) .. SumNat(counts[..k]) + counts[k]]
                 == PolylineNodes(geo, toRadians, steps[k], altitude)
    {
      FlattenSlice(perStep, k);
    }
  }

  /** What `addSceneModels()` does. */
  datatype SceneModels =
    | RetryAfter(seconds: real)          // no current location yet: nothing added, call again later
    | RouteModels(nodes: seq<RouteNode>) // the route nodes, in the order they are added
    | DemoModels                         // no routes: the fixed demo objects
    | RangeTrap                          // a step polyline with no points: `0 ..< -1` traps

  /**
    `addSceneModels()`. Without a current location nothing is added and the
    call is rescheduled half a second later. With one, every step of every
    route contributes its polyline nodes at the current location's
    altitude; with no routes the demo objects are added instead.
  */
  function AddSceneModels(geo: Geodesy, toRadians: real -> real, currentLocation: Option<Location>,
                          routes: Option<seq<Route>>): (r: SceneModels)
    ensures r.RetryAfter? <==> currentLocation.None?
    ensures r.RetryAfter? ==> r.seconds == 0.5
    ensures currentLocation.Some? && routes.None? ==> r == DemoModels
    ensures currentLocation.Some? && routes.Some? ==> (r == RangeTrap <==> HasEmptyStep(AllSteps(routes.value)))
    ensures r.RouteModels? ==>
              forall k :: 0 <= k < |r.nodes| ==> r.nodes[k].location.altitude == currentLocation.value.altitude
    ensures currentLocation.Some? && routes.Some? && !HasEmptyStep(AllSteps(routes.value)) ==>
              var steps, counts := AllSteps(routes.value), StepNodeCounts(AllSteps(routes.value));
              && r.RouteModels?
              && |r.nodes| == SumNat(counts)
              && forall k :: 0 <= k < |steps| ==>
                   && SumNat(counts[..k]) + counts[k] <= |r.nodes|
                   && r.nodes[SumNat(counts[..k]) .. SumNat(counts[..k]) + counts[k]]
                      == PolylineNodes(geo, toRadians, steps[k], currentLocation.value.altitude)
  {
    if currentLocation.None? then RetryAfter(0.5)
    else if routes.None? then DemoModels
    else
      var altitude := currentLocation.value.altitude;
      var steps := AllSteps(routes.value);
      if HasEmptyStep(steps) then RangeTrap
      else
        var perStep := PerStepNodes(geo, toRadians, steps, altitude);
        var nodes := Flatten(perStep);
        RouteNodesInStepOrder(geo, toRadians, steps, altitude);
        assert forall x :: x in nodes ==> x.location.altitude == altitude by {
          forall x | x in nodes
            ensures x.location.altitude == altitude
          {
            FlattenMember(perStep, x);
          }
        }
        RouteModels(nodes)
  }

  // ---------------------------------------------------------------------
  // Heading normalisation (updateInfoLabel)
  // ---------------------------------------------------------------------

  predicate IsWhole(q: real)
  {
    q.Floor as real == q
  }

  lemma WholeComplement(w: real)
    requires IsWhole(w)
    ensures IsWhole(1.0 - w)
  {
    var n := w.Floor;
    var k := 1 - n;
    assert 1.0 - w == k as real;
    assert (k as real).Floor == k;
  }

  /** Rounding toward zero. */
  function Truncate(q: real): int
  {
    if q >= 0.0 then q.Floor else -((-q).Floor)
  }

  /**
    Swift's `x.truncatingRemainder(dividingBy: 360)`: x minus the multiple
    of 360 found by rounding x / 360 toward zero, so the remainder keeps
    the sign of x.
  */
  function TruncatingRemainder360(x: real): (r: real)
    ensures x >= 0.0 ==> 0.0 <= r < 360.0
    ensures x < 0.0 ==> -360.0 < r <= 0.0
    ensures IsWhole((x - r) / 360.0)
  {
    var t := Truncate(x / 360.0);
    assert ((t as real)).Floor == t;
    x - 360.0 * (t as real)
  }

  /**
    The heading shown in the info label: ((0 - y) + 360) truncating-mod 360,
    where y is the camera's euler y angle in degrees. It is congruent to -y
    modulo 360, and lies in [0, 360) whenever y <= 360; for y above 360 the
    truncating remainder is negative or zero.
  */
  function NormalizedHeading(yDegrees: real): (r: real)
    ensures yDegrees <= 360.0 ==> 0.0 <= r < 360.0
    ensures yDegrees > 360.0 ==> -360.0 < r <= 0.0
    ensures IsWhole((r + yDegrees) / 360.0)
  {
    var x := (0.0 - yDegrees) + 360.0;
    var r := TruncatingRemainder360(x);
    assert (r + yDegrees) / 360.0 == 1.0 - (x - r) / 360.0;
    WholeComplement((x - r) / 360.0);
    r
  }

  // ---------------------------------------------------------------------
  // Touch dispatch (touchesBegan)
  // ---------------------------------------------------------------------

  /**
    The first touch: the view it landed on, if any, and its x position in
    the controller's view.
  */
  datatype Touch = Touch(view: Option<View>, x: real)

  /** The controller's two tap switches; both are `false` as shipped. */
  datatype TouchConfig = TouchConfig(adjustNorthByTappingSidesOfScreen: bool, addNodeByTappingScreen: bool)

  const ShippedConfig: TouchConfig := TouchConfig(false, false)

  datatype TouchAction =
    | NoAction
    | StopCenteringMap          // centerMapOnUserLocation := false
    | TurnHeadingAntiClockwise  // moveSceneHeadingAntiClockwise()
    | TurnHeadingClockwise      // moveSceneHeadingClockwise()
    | AddPinAtCurrentPosition   // a distance-scaled (.normal) pin billboard at the current position

  /** The touched view is the map or lies inside it. */
  predicate OnMap(view: View, mapView: View)
  {
    mapView == view || view in RecursiveSubviews(mapView)
  }

  /** A touch that reached the screen-edge tests: it has a view, and not the map's. */
  predicate OffMap(touch: Option<Touch>, mapView: View)
  {
    touch.Some? && touch.value.view.Some? && !OnMap(touch.value.view.value, mapView)
  }

  /**
    `touchesBegan(_:with:)`. A touch on the map only stops map centring.
    Elsewhere the left edge (x <= 40) is checked first, then the right edge
    (x >= width - 40, the width being that of the touched view), each only
    when side taps adjust north; otherwise a pin is added only when taps
    add nodes.
  */
  function TouchesBegan(touch: Option<Touch>, mapView: View, config: TouchConfig): (r: TouchAction)
    ensures r == NoAction <==> touch.None? || touch.value.view.None? ||
                               (OffMap(touch, mapView) && !config.adjustNorthByTappingSidesOfScreen &&
                                !config.addNodeByTappingScreen) ||
                               (OffMap(touch, mapView) && !config.addNodeByTappingScreen &&
                                40.0 < touch.value.x < touch.value.view.value.width - 40.0)
    ensures r == StopCenteringMap <==>
              touch.Some? && touch.value.view.Some? && OnMap(touch.value.view.value, mapView)
    ensures r == TurnHeadingAntiClockwise <==>
              OffMap(touch, mapView) && config.adjustNorthByTappingSidesOfScreen && touch.value.x <= 40.0
    ensures r == TurnHeadingClockwise <==>
              OffMap(touch, mapView) && config.adjustNorthByTappingSidesOfScreen &&
              40.0 < touch.value.x && touch.value.x >= touch.value.view.value.width - 40.0
    ensures r == AddPinAtCurrentPosition ==> OffMap(touch, mapView) && config.addNodeByTappingScreen
  {
    if touch.None? || touch.value.view.None? then NoAction
    else
      var view := touch.value.view.value;
      if OnMap(view, mapView) then StopCenteringMap
      else
        var x := touch.value.x;
        if x <= 40.0 && config.adjustNorthByTappingSidesOfScreen then TurnHeadingAntiClockwise
        else if x >= view.width - 40.0 && config.adjustNorthByTappingSidesOfScreen then TurnHeadingClockwise
        else if config.addNodeByTappingScreen then AddPinAtCurrentPosition
        else NoAction
  }

  /** A touch on any view below the map stops map centring, wherever it lands. */
  lemma TouchInsideMapStopsCentering(inner: View, mapView: View, x: real, config: TouchConfig)
    requires IsDescendant(inner, mapView)
    ensures TouchesBegan(Some(Touch(Some(inner), x)), mapView, config) == StopCenteringMap
  {
    RecursiveSubviewsMembers(mapView, inner);
  }

  /** As shipped, a touch can do nothing but stop map centring. */
  lemma ShippedTouchesOnlyStopCentering(touch: Option<Touch>, mapView: View)
    ensures TouchesBegan(touch, mapView, ShippedConfig) in {NoAction, StopCenteringMap}
  {
  }

}
