# ARKit-CoreLocation: blob footprints, billboard scaling and demo-controller helpers

A Dafny model of the logic in three files of ARKit-CoreLocation (ARCL), the
library that pins SceneKit nodes to geographic coordinates in an ARKit scene:

- **BlobNode** turns caller-ordered boundary coordinates into a node anchored at
  their arithmetic-mean centroid (altitude `floor`), whose child is a closed
  Bezier footprint (move, lines, close) extruded by `height`. Each vertex is
  `(cos θ·d, sin θ·d)` with `θ = 90 − bearing`, distance and bearing measured
  from the anchor. As in the source, θ is a degree value handed to `cos`/`sin`,
  which read it as radians; the model keeps that literally.
- **BillboardNode** builds a camera-facing plane (a hundredth of the image size,
  one Y-free billboard constraint, one AnnotationShape child) and, on each
  tick, either skips (no scene position, no current location, or no shape
  child) or resets its own scale to (1,1,1) and gives the shape and every one of
  its children the same scale vector. In relative mode that vector is the node's
  scale as `adjustedDistance` left it; otherwise it is the scaling scheme's
  value on all three axes. It then lowers the pivot by 1.1 × the vector's y
  component and runs the completion callback once after the transaction
  commits.
- **POIViewController** helpers: the coordinate midpoint, the route polyline
  segmentation (a joint per point but the last, a segment per consecutive
  pair), the retry guard of `addSceneModels`, `UIView.recursiveSubviews`, the
  heading normalisation with a truncating remainder, and touch dispatch.

Modules: `Wrappers` (Option), `Geo` (coordinates, locations and the external
geodesy and trigonometry as function-valued parameters), `Sums` (the `reduce`
fold and a reference sum), `Blob`, `Billboard`, `Views`, `Poi`.

Distance, bearing, sin, cos, LocationNode's `location(_:)` (the node's location
from the best location estimate), `renderingOrder(fromDistance:)`,
`adjustedDistance(...)` (both the distance it returns and the node scale it
leaves behind), the scaling scheme and `degreesToRadians` live in files that
are not part of this model. They are parameters or tick inputs, and their
formulas are not guessed. Two facts are assumed about them, each as an
explicit `requires` where it is used:
- `Geo.ZeroSelfDistance`: the distance from a location to itself is 0.
- `Geo.Pythagorean`: sin² + cos² = 1.

`Billboard.KeepsScale` (`adjustedDistance` leaves the node's scale unchanged)
is the hypothesis of `Billboard.AuthoredScaleResetWhenScaleKept` only. The
signature of the `adjustedDistance` hook also builds in that the distance it
returns does not depend on the node's scale (see the
`Billboard.UpdatePositionAndScale` line under "Left out").

Behaviours the proofs make visible:
- `Billboard.AuthoredScaleLastsOneTick`: in relative mode each tick resets the
  node's own scale to (1,1,1) after reading it, so after two ticks the node is
  the same whatever scale it was authored with. What the shape shows from
  then on is whatever `adjustedDistance` sets on the node.
  `Billboard.AuthoredScaleResetWhenScaleKept` covers the case where
  `adjustedDistance` leaves the scale alone: the shape then shows (1,1,1)
  from the second tick.
- `Poi.TouchesBegan`: the right-edge test uses the width of the touched view,
  since the guard's `view` shadows the controller's, while x is measured in the
  controller's view.
- `Poi.NormalizedHeading`: the result is in [0, 360) only for y ≤ 360; above
  that the truncating remainder is negative or zero.
- A blob boundary of fewer than three points is degenerate (zero area), but
  the code does not reject it: one or two points still build a node and a
  path, and the model does the same.

## Model

| member | source | states |
|---|---|---|
| Sums.Reduce | Sources/ARKit-CoreLocation/Nodes/BlobNode.swift:48-49 | The left fold `reduce(acc) { acc, c in f(c) + acc }` equals acc plus the reference sum of f over the input |
| Blob.CenterPoint | Sources/ARKit-CoreLocation/Nodes/BlobNode.swift:46-53 | There is a centroid exactly when the input is non-empty; its latitude is the mean of the input latitudes and its longitude the mean of the input longitudes |
| Blob.CenterOfIdenticalPoints | Sources/ARKit-CoreLocation/Nodes/BlobNode.swift:48-51 | The centroid of one point, or of repeated identical points, is that point |
| Blob.CenterWithinBounds | Sources/ARKit-CoreLocation/Nodes/BlobNode.swift:48-49 | If every input lies in a latitude/longitude box, so does the centroid, so it lies between the inputs' minimum and maximum in each component |
| Blob.CenterIgnoresOrder | Sources/ARKit-CoreLocation/Nodes/BlobNode.swift:48-49 | Permuting the input leaves the centroid unchanged |
| Blob.PointsToPath | Sources/ARKit-CoreLocation/Nodes/BlobNode.swift:55-80 | The path has one command per coordinate plus a close: a move to vertex 0, a line to each later vertex in the caller's order, then the close, with vertex i computed from coordinate i |
| Blob.VertexOnCircle | Sources/ARKit-CoreLocation/Nodes/BlobNode.swift:61-67 | Given sin² + cos² = 1, each vertex (cos θ·d, sin θ·d) satisfies x² + y² = d², where d is the anchor-to-point distance at the anchor's altitude |
| Blob.AnchorVertexIsOrigin | Sources/ARKit-CoreLocation/Nodes/BlobNode.swift:61-67 | A boundary coordinate equal to the anchor's coordinate has d = 0 and maps to the path origin |
| Blob.BuildBlob | Sources/ARKit-CoreLocation/Nodes/BlobNode.swift:14-35 | Any non-empty input builds a node, with no minimum point count. The anchor is the centroid at altitude `floor`. The single child is the input's path extruded by `height`, pitched by π/2 and yawed by −π/4 |
| Billboard.Init | Sources/ARKit-CoreLocation/Nodes/BillboardNode.swift:14-37 | A new billboard has exactly one child, an AnnotationShape whose plane is the image width/100 by height/100. Its only constraint is a billboard constraint free about Y, and its own scale is (1,1,1) |
| Billboard.UpdatePositionAndScale | Sources/ARKit-CoreLocation/Nodes/BillboardNode.swift:55-103 | The tick is skipped (node unchanged, no transaction, no callback) exactly when the scene position or current location is missing or the first child is not an AnnotationShape. Otherwise: the effects are begin (0.0 s on setup, 0.1 s after), commit, one completion; the node's scale is (1,1,1); the shape gets the node scale as `adjustedDistance` left it (relative mode) or (s,s,s) with s the scheme's value for the distance and adjusted distance; every shape child gets the shape's scale; the pivot is (0, −1.1·scale.y, 0); the shape gets the rendering order for the distance; nothing else changes |
| Billboard.DistanceScaledUpdateIsIdempotent | Sources/ARKit-CoreLocation/Nodes/BillboardNode.swift:87-97 | In distance-scaled mode, applying the same tick twice leaves the node as one application did |
| Billboard.AuthoredScaleLastsOneTick | Sources/ARKit-CoreLocation/Nodes/BillboardNode.swift:71-86 | In relative mode, two nodes that differ only in their authored scale are identical after two ticks |
| Billboard.AuthoredScaleResetWhenScaleKept | Sources/ARKit-CoreLocation/Nodes/BillboardNode.swift:76-86 | If `adjustedDistance` leaves the node scale unchanged, then in relative mode the first tick gives the shape the authored scale and the next tick gives it (1,1,1), with pivot (0, −1.1, 0) |
| Billboard.FreshBillboardIsUpdated | Sources/ARKit-CoreLocation/Nodes/BillboardNode.swift:60-65 | A billboard fresh from its initialiser passes the shape guard. Any tick that has a scene position and a current location updates it |
| Views.RecursiveSubviewsCount | ARKit+CoreLocation/POIViewController.swift:583-589 | `recursiveSubviews()` has exactly as many entries as the view has descendants |
| Views.RecursiveSubviewsOrder | ARKit+CoreLocation/POIViewController.swift:583-589 | The direct subviews come first, in order. Subview i's recursive subviews then occupy one contiguous block, placed after the blocks of the subviews before it |
| Views.RecursiveSubviewsMembers | ARKit+CoreLocation/POIViewController.swift:583-589 | A view is in `recursiveSubviews()` exactly when it is a subview of the receiver or of one of its descendants |
| Views.ReceiverExcluded | ARKit+CoreLocation/POIViewController.swift:583-589 | The receiver is never among its own recursive subviews |
| Poi.MidPoint | ARKit+CoreLocation/POIViewController.swift:564-571 | The midpoint lies equally far from both coordinates in latitude and in longitude |
| Poi.MidPointSymmetric | ARKit+CoreLocation/POIViewController.swift:564-571 | midPoint(a, b) = midPoint(b, a) |
| Poi.MidPointOfSamePoint | ARKit+CoreLocation/POIViewController.swift:564-571 | midPoint(p, p) = p |
| Poi.PolylineNodes | ARKit+CoreLocation/POIViewController.swift:226-259 | A polyline of n ≥ 1 points yields 2(n−1) nodes, that is n−1 joints and n−1 segments, all at the current location's altitude |
| Poi.PolylineNodesAt | ARKit+CoreLocation/POIViewController.swift:226-257 | Node 2i is the joint at point i. Node 2i+1 is the segment anchored at midPoint(point i, point i+1), its length their distance and its yaw the negated bearing in radians. So the last point gets no joint |
| Poi.AddSceneModels | ARKit+CoreLocation/POIViewController.swift:204-270 | Without a current location nothing is added and a retry is scheduled after 0.5 s. With one and no routes the demo objects are added. With routes, the demo objects are not added. A step with an empty polyline traps the `0 ..< count − 1` range. Otherwise the added nodes are, in route order and then step order, each step's polyline nodes as one contiguous block of 2(n−1) nodes, all at the current altitude |
| Poi.RouteNodesInStepOrder | ARKit+CoreLocation/POIViewController.swift:218-259 | With no empty step, step k's polyline nodes occupy one contiguous block, right after the blocks of the steps before it, and the total length is the sum of the blocks |
| Poi.TruncatingRemainder360 | ARKit+CoreLocation/POIViewController.swift:455 | `x.truncatingRemainder(dividingBy: 360)` keeps the sign of x, is smaller than 360 in magnitude, and differs from x by a whole multiple of 360 |
| Poi.NormalizedHeading | ARKit+CoreLocation/POIViewController.swift:455 | ((−y) + 360) truncating-mod 360 is congruent to −y modulo 360. It lies in [0, 360) whenever y ≤ 360 and in (−360, 0] when y > 360 |
| Poi.TouchesBegan | ARKit+CoreLocation/POIViewController.swift:133-161 | A touch on the map or any view inside it only stops map centring. Elsewhere, with side taps enabled, x ≤ 40 turns the heading anticlockwise (checked first) and x ≥ width − 40 turns it clockwise. Otherwise a pin is added only when taps add nodes, and nothing happens without a touch or touched view |
| Poi.TouchInsideMapStopsCentering | ARKit+CoreLocation/POIViewController.swift:138-139 | A touch on any descendant of the map stops map centring, wherever it lands |
| Poi.ShippedTouchesOnlyStopCentering | ARKit+CoreLocation/POIViewController.swift:45-46 | With both tap switches false as shipped, a touch can only stop map centring or do nothing |

## Left out

- Geodesy, trigonometry, LocationNode's `location(_:)`, `renderingOrder`, `adjustedDistance`, the scaling schemes and `degreesToRadians`/`radiansToDegrees` are defined in files that are not part of this model. `location(_:)` applied to the best location estimate is a tick input. They are function parameters, with only the two facts above assumed.
- Blob.CenterPoint: on an empty input the source divides 0 by 0 and yields a NaN coordinate. The model has no NaN and returns None.
- Blob.BuildBlob: for an empty input the source builds a node with a NaN anchor and a path holding only the close command. The model returns None instead.
- IEEE floating point: Double and Float values are reals, so there is no rounding, no NaN and no infinity. Longitude averaging across the antimeridian is therefore also not modelled.
- SceneKit and UIKit rendering: materials, colours, lighting, `removeFlicker`, SCNShape tessellation, transaction animation itself, and `print` logging. The transaction appears only as its begin/commit effects.
- Billboard.UpdatePositionAndScale: the node's scene position is not modelled. Any repositioning inside LocationNode's `adjustedDistance` is in a file that is not part of this model. Its write to the node's scale is modelled only as an opaque function of setup, position and the prior scale. The distance it returns is taken not to depend on the node's scale.
- LocationNode's default for `scaleRelativeToDistance` is not part of this model, so `Billboard.Init` takes it as a parameter.
- `touches.first` of an unordered set: the chosen touch is an input.
- The deferred `DispatchQueue` add of the tapped pin: the model only returns `AddPinAtCurrentPosition`.
- View identity is value equality of `View` records, each carrying a tag.
- `buildDemoData()`: the demo objects are represented by the single outcome `DemoModels`. Their contents are node-construction boilerplate.
- Not modelled: the default-lighting flag, map overlays and annotations, timers, notification observers, label formatting and the touch-delegate label text.
- `currentLocation!.altitude` is re-read on every loop iteration in the source. The model simplifies this to a single read, so every route node gets the same altitude.
- BoxNode, SphereNode, CylinderNode, TorusNode and TextNode pass their arguments straight to SceneKit geometry constructors and have no logic to state.
