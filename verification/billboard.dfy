/**
  BillboardNode: a flat, camera-facing node. Its one child is an
  AnnotationShape carrying a plane; each tick the node decides the shape's
  scale (in relative mode the node's own scale as `adjustedDistance` left
  it, otherwise the scaling scheme's value on all three axes), resets its
  own scale, and lowers its pivot in proportion to the scale.

  The node is an immutable record and the update returns the next record
  together with the observable effects in order: the animation
  transaction and the completion callback.
*/
module Billboard {
  import opened Wrappers
  import opened Geo

  /** SCNVector3 (Float components in the source, reals here). */
  datatype Vector3 = Vector3(x: real, y: real, z: real)

  const Unit: Vector3 := Vector3(1.0, 1.0, 1.0)

  function Uniform(s: real): Vector3 { Vector3(s, s, s) }

  /** SCNPlane dimensions, in scene units. */
  datatype Plane = Plane(width: real, height: real)

  /** UIImage.size, in points. */
  datatype ImageSize = ImageSize(width: real, height: real)

  /** SCNBillboardAxis, an option set. */
  datatype FreeAxes = FreeAxes(x: bool, y: bool, z: bool)

  const OnlyY: FreeAxes := FreeAxes(false, true, false)

  datatype Constraint = BillboardConstraint(freeAxes: FreeAxes)

  /** A child of the annotation shape; only its scale takes part in the update. */
  datatype SubNode = SubNode(name: string, scale: Vector3)

  /** A direct child of the billboard node. */
  datatype ChildNode =
    | AnnotationShape(name: string, geometry: Option<Plane>, scale: Vector3,
                      renderingOrder: int, childNodes: seq<SubNode>)
    | PlainNode(name: string, scale: Vector3, renderingOrder: int)

  /** The billboard node; `pivot` is the translation of its pivot matrix. */
  datatype BillboardNode = BillboardNode(
    location: Location,
    scale: Vector3,
    pivot: Vector3,
    constraints: seq<Constraint>,
    childNodes: seq<ChildNode>,
    scaleRelativeToDistance: bool)

  /** `childNodes.first as? AnnotationShape` succeeds. */
  predicate HasShape(node: BillboardNode)
  {
    |node.childNodes| > 0 && node.childNodes[0].AnnotationShape?
  }

  /**
    `BillboardNode.init(location:image:)`: one AnnotationShape child holding
    a plane of a hundredth of the image's size, and a single billboard
    constraint free only about Y. `scaleRelativeToDistance` is the value the
    LocationNode base class starts with, which is not part of this model.
  */
  function Init(location: Location, image: ImageSize, scaleRelativeToDistance: bool): (node: BillboardNode)
    ensures HasShape(node) && |node.childNodes| == 1
    ensures node.childNodes[0].geometry.Some?
    ensures node.childNodes[0].geometry.value.width * 100.0 == image.width
    ensures node.childNodes[0].geometry.value.height * 100.0 == image.height
    ensures node.childNodes[0].childNodes == []
    ensures node.constraints == [BillboardConstraint(OnlyY)]
    ensures node.location == location && node.scale == Unit
    ensures node.scaleRelativeToDistance == scaleRelativeToDistance
  {
    var plane := Plane(image.width / 100.0, image.height / 100.0);
    var shape := AnnotationShape("", Some(plane), Unit, 0, []);
    BillboardNode(location, Unit, Vector3(0.0, 0.0, 0.0), [BillboardConstraint(OnlyY)], [shape],
                  scaleRelativeToDistance)
  }

  /**
    What one tick sees: whether this is the first placement, the node's
    scene position, the location manager's current location, and the
    node's location as derived from the best location estimate.
  */
  datatype Tick = Tick(
    setup: bool,
    scenePosition: Option<Vector3>,
    currentLocation: Option<Location>,
    estimatedNodeLocation: Location)

  /**
    LocationNode collaborators that are not part of this model:
    `renderingOrder(fromDistance:)`, `adjustedDistance(setup:position:...)`
    for this node and location manager, and `scalingScheme.getScheme()`.
    `adjustedDistance` is a method of the node and may rewrite the node's
    own scale before the update reads it: `adjustedDistance` gives the
    distance it returns, and `scaleAfterAdjust(setup, position, scale)` the
    scale it leaves on a node whose scale was `scale`.
  */
  datatype Hooks = Hooks(
    renderingOrder: real -> int,
    adjustedDistance: (bool, Vector3) -> real,
    scaleAfterAdjust: (bool, Vector3, Vector3) -> Vector3,
    scheme: (real, real) -> real)

  /** `adjustedDistance` never touches the node's scale. */
  ghost predicate KeepsScale(hooks: Hooks)
  {
    forall setup, position, scale :: hooks.scaleAfterAdjust(setup, position, scale) == scale
  }

  /** Observable effects of one update, in the order they happen. */
  datatype Effect = BeginTransaction(animationDuration: real) | CommitTransaction | OnCompletion

  datatype Outcome = Outcome(node: BillboardNode, effects: seq<Effect>)

  /** The distance from the node to the current location on a tick that has one. */
  function TickDistance(geo: Geodesy, tick: Tick): real
    requires tick.currentLocation.Some?
  {
    geo.distance(tick.estimatedNodeLocation, tick.currentLocation.value)
  }

  /** The scheme's scale for this tick. */
  function SchemeScale(geo: Geodesy, hooks: Hooks, tick: Tick): real
    requires tick.currentLocation.Some? && tick.scenePosition.Some?
  {
    hooks.scheme(TickDistance(geo, tick), hooks.adjustedDistance(tick.setup, tick.scenePosition.value))
  }

  /** Every sub-node takes scale `s`. */
  function ScaleAll(subs: seq<SubNode>, s: Vector3): (r: seq<SubNode>)
    ensures |r| == |subs|
    ensures forall i :: 0 <= i < |r| ==> r[i] == subs[i].(scale := s)
  {
    seq(|subs|, i requires 0 <= i < |subs| => subs[i].(scale := s))
  }

  /** The update skips the tick: no scene position, no current location, or no shape. */
  predicate Skips(node: BillboardNode, tick: Tick)
  {
    tick.scenePosition.None? || tick.currentLocation.None? || !HasShape(node)
  }

  /**
    `BillboardNode.updatePositionAndScale(...)`. A skipped tick changes
    nothing and runs no callback. Otherwise, inside one transaction (0 s on
    setup, 0.1 s after), the first child gets the rendering order for the
    distance, the node's own scale becomes (1,1,1), the shape and each of
    its children get either the node's scale as `adjustedDistance` left it
    or the scheme's scale on all three axes, and the pivot drops by 1.1 times the
    resulting y scale; the completion callback runs once, after commit.
  */
  function UpdatePositionAndScale(node: BillboardNode, tick: Tick, geo: Geodesy, hooks: Hooks): (r: Outcome)
    ensures r.effects == [] <==> Skips(node, tick)
    ensures Skips(node, tick) ==> r.node == node
    ensures !Skips(node, tick) ==>
              r.effects == [BeginTransaction(if tick.setup then 0.0 else 0.1), CommitTransaction, OnCompletion]
    ensures !Skips(node, tick) ==>
              && r.node.scale == Unit
              && HasShape(r.node)
              && |r.node.childNodes| == |node.childNodes|
              && r.node.childNodes[1..] == node.childNodes[1..]
              && r.node.location == node.location
              && r.node.constraints == node.constraints
              && r.node.scaleRelativeToDistance == node.scaleRelativeToDistance
    ensures !Skips(node, tick) ==>
              var before, after := node.childNodes[0], r.node.childNodes[0];
              && after.name == before.name
              && after.geometry == before.geometry
              && after.renderingOrder == hooks.renderingOrder(TickDistance(geo, tick))
              && |after.childNodes| == |before.childNodes|
              && (forall i :: 0 <= i < |after.childNodes| ==>
                    after.childNodes[i] == before.childNodes[i].(scale := after.scale))
              && (node.scaleRelativeToDistance ==>
                    after.scale == hooks.scaleAfterAdjust(tick.setup, tick.scenePosition.value, node.scale))
              && (!node.scaleRelativeToDistance ==> after.scale == Uniform(SchemeScale(geo, hooks, tick)))
              && r.node.pivot == Vector3(0.0, -1.1 * after.scale.y, 0.0)
  {
    if Skips(node, tick) then
      Outcome(node, [])
    else
      var shape := node.childNodes[0];
      var distance := TickDistance(geo, tick);
      var adjustedDistance := hooks.adjustedDistance(tick.setup, tick.scenePosition.value);
      var appliedScale := hooks.scaleAfterAdjust(tick.setup, tick.scenePosition.value, node.scale);
      var scale := if node.scaleRelativeToDistance then appliedScale.y
                   else hooks.scheme(distance, adjustedDistance);
      var shapeScale := if node.scaleRelativeToDistance then appliedScale else Uniform(scale);
      var shape' := shape.(renderingOrder := hooks.renderingOrder(distance), scale := shapeScale,
                           childNodes := ScaleAll(shape.childNodes, shapeScale));
      var node' := node.(scale := Unit, pivot := Vector3(0.0, -1.1 * scale, 0.0),
                         childNodes := [shape'] + node.childNodes[1..]);
      Outcome(node', [BeginTransaction(if tick.setup then 0.0 else 0.1), CommitTransaction, OnCompletion])
  }

  /** In distance-scaled mode a second identical tick changes nothing further. */
  lemma DistanceScaledUpdateIsIdempotent(node: BillboardNode, tick: Tick, geo: Geodesy, hooks: Hooks)
    requires !node.scaleRelativeToDistance
    ensures var once := UpdatePositionAndScale(node, tick, geo, hooks).node;
            UpdatePositionAndScale(once, tick, geo, hooks).node == once
  {
    var once := UpdatePositionAndScale(node, tick, geo, hooks).node;
    if !Skips(node, tick) {
      var twice := UpdatePositionAndScale(once, tick, geo, hooks).node;
      var s1, s2 := once.childNodes[0], twice.childNodes[0];
      assert s2.childNodes == s1.childNodes;
      assert s2 == s1;
      assert twice.childNodes == once.childNodes;
    }
  }

  /** Two ticks in a row. */
  function TwoTicks(node: BillboardNode, first: Tick, second: Tick, geo: Geodesy, hooks: Hooks): BillboardNode
  {
    UpdatePositionAndScale(UpdatePositionAndScale(node, first, geo, hooks).node, second, geo, hooks).node
  }

  /**
    In relative mode the authored scale reaches the shape on at most one
    tick: that tick resets the node's own scale to (1,1,1), so after a
    second tick the node is the same whatever scale it was authored with.
  */
  lemma AuthoredScaleLastsOneTick(node: BillboardNode, a: Vector3, b: Vector3, first: Tick, second: Tick,
                                  geo: Geodesy, hooks: Hooks)
    requires node.scaleRelativeToDistance
    requires !Skips(node, first)
    requires second.scenePosition.Some? && second.currentLocation.Some?
    ensures TwoTicks(node.(scale := a), first, second, geo, hooks)
            == TwoTicks(node.(scale := b), first, second, geo, hooks)
  {
    var onceA := UpdatePositionAndScale(node.(scale := a), first, geo, hooks).node;
    var onceB := UpdatePositionAndScale(node.(scale := b), first, geo, hooks).node;
    var twiceA := UpdatePositionAndScale(onceA, second, geo, hooks).node;
    var twiceB := UpdatePositionAndScale(onceB, second, geo, hooks).node;
    var sA, sB := twiceA.childNodes[0], twiceB.childNodes[0];
    assert sA.childNodes == sB.childNodes;
    assert sA == sB;
    assert twiceA.childNodes == twiceB.childNodes;
  }

  /**
    When `adjustedDistance` leaves the node's scale alone, relative mode
    shows the authored scale on the first tick and (1,1,1) from the next.
  */
  lemma AuthoredScaleResetWhenScaleKept(node: BillboardNode, first: Tick, second: Tick, geo: Geodesy, hooks: Hooks)
    requires KeepsScale(hooks)
    requires node.scaleRelativeToDistance
    requires !Skips(node, first)
    requires second.scenePosition.Some? && second.currentLocation.Some?
    ensures var once := UpdatePositionAndScale(node, first, geo, hooks).node;
            var twice := UpdatePositionAndScale(once, second, geo, hooks).node;
            && once.childNodes[0].scale == node.scale
            && twice.childNodes[0].scale == Unit
            && twice.pivot == Vector3(0.0, -1.1, 0.0)
  {
  }

  /** A freshly built billboard is updated on the first tick that has a position and a location. */
  lemma FreshBillboardIsUpdated(location: Location, image: ImageSize, relative: bool, tick: Tick,
                                geo: Geodesy, hooks: Hooks)
    requires tick.scenePosition.Some? && tick.currentLocation.Some?
    ensures UpdatePositionAndScale(Init(location, image, relative), tick, geo, hooks).effects
            == [BeginTransaction(if tick.setup then 0.0 else 0.1), CommitTransaction, OnCompletion]
  {
  }

}
