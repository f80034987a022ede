# Battle: the collision and simulation core in Dafny

This project models the game logic bundled in `public/main.js` of a two-player
browser fighting game. Each player is a square that moves, turns towards the
other player, bounces off obstacles, and attacks or blocks. A hit ends the
round, and a countdown starts the next one. The model covers:

- **Geometry** (`geometry.dfy`): the mutable 2D `Vector` class and the values it
  stands for.
- **Shapes** (`shapes.dfy`): polygons, with the vertex-dropping pass of
  `setPoints` and the world-space vertices, edges and normals that `_recalc`
  derives. Also circles, and boxes converted to polygons.
- **Separating axes** (`sat.dfy`): what each collision test computes, written
  as functions. This covers projection ranges, the separation test on one
  axis, the detailed bookkeeping of overlap and containment, and the Voronoi
  region scan of the polygon-circle test. The circle-circle and
  point-in-circle tests are here too.
- **Collider** (`collider.dfy`): the `Collider2D` object. Its shared details
  record and its two scratch stacks (ten vectors, five arrays) are popped
  and pushed exactly as the source does. The source's arrays start empty and
  get entries 0 and 1 on first use (main.js:915-916); the model's start with
  two entries, which changes nothing, since both are written before any read. Each test is proved against
  the functions of `sat.dfy`, and each is shown to give back what it borrowed
  from the stacks.
- **Obstacles** (`obstacle.dfy`): the obstacle registry and `collidesWith`.
- **Character** (`character.dfy`): the player's state machine. It covers
  `move`, `turn`, `collide`, `attack`, `strike`, `block`, `setActive`,
  `executeCharacterActions` and `onNextTick`. It also covers the key and
  button handlers that set the intents, and the game's listener that ends a
  round.
  - The `setTimeout` callbacks become explicit pending timers and an `Expire`
    event.
  - `Math.sqrt`, `Math.cos`, `Math.sin` and `Math.atan2` are the fields of an
    abstract `MathLib` value. Nothing is assumed about the numbers they
    return.
- **Renderer** (`render.dfy`): the frame-skip computation and the frame counter
  of `Renderer.tick`.
- **Countdown** (`countdown.dfy`): the countdown between rounds.
- **Utilities** (`util.dfy`): `clamp` and the obstacle payload helpers.

Numbers are Dafny `real`s standing for doubles. Rounding is not modelled.
`Number.MAX_VALUE` is written out as its exact value.

## Model

| member | source | states |
|---|---|---|
| Util.Clamp | public/main.js:130-132 | The result lies in [lo, hi] when the range is non-empty. It is the number itself inside the range and lo below it. It is hi above the range or when the range is empty, which is how Math.min(Math.max(num, lo), hi) behaves. |
| Util.ClampIdempotent | public/main.js:130-132 | Clamping twice into the same non-empty range is clamping once. |
| Util.Square | public/main.js:1025-1034 | The payload of a character at p is the axis-aligned square with a at p and c at p + (size, size). |
| Util.RotationCentre | public/main.js:104-129 | rotate turns about the centroid moved left by the offset's x component; the offset's y component is unused. |
| Util.RotateAdditive | public/main.js:104-129 | The corner rotation is linear, whatever cosine and sine return. |
| Util.RotateKeepsCentroid | public/main.js:104-129 | Rotating a payload without an offset keeps its centroid. |
| Geometry.Normalize | public/main.js:330-339 | A vector whose length is not positive is left as it is. |
| Geometry.PerpOrthogonal | public/main.js:306-313 | perp is orthogonal to the vector and keeps its squared length; applying it twice negates. |
| Geometry.ProjectAlongAxis | public/main.js:361-368 | A projection keeps the component along the axis and is idempotent. |
| Geometry.ReflectKeepsAxisComponent | public/main.js:377-386 | Reflection keeps the component along the axis. |
| Geometry.ReflectInvolutive | public/main.js:377-386 | Reflecting twice across one axis gives the vector back. |
| Geometry.ReflectNInvolutive | public/main.js:387-396 | With a unit axis, reflectN agrees with reflect and is an involution. |
| Geometry.Vector.constructor | public/main.js:268-276 | The new vector holds the given coordinates. |
| Geometry.Vector.Copy | public/main.js:294-300 | copy: the vector takes the other's coordinates. |
| Geometry.Vector.Clone | public/main.js:301-305 | clone: a new vector with the same coordinates. |
| Geometry.Vector.PerpInPlace | public/main.js:306-313 | perp in place: (x, y) becomes (y, -x). |
| Geometry.Vector.RotateInPlace | public/main.js:314-322 | rotate in place, through the abstract cosine and sine. |
| Geometry.Vector.Reverse | public/main.js:323-329 | reverse: both coordinates negated. |
| Geometry.Vector.NormalizeInPlace | public/main.js:330-339 | normalize: divided by the length when it is positive. |
| Geometry.Vector.AddInPlace | public/main.js:340-346 | add: the sum, with the operand read before the write, so adding a vector to itself doubles it. |
| Geometry.Vector.SubInPlace | public/main.js:347-353 | sub: the difference, read before the write. |
| Geometry.Vector.AddVec | public/main.js:340-346 | add of a plain value. |
| Geometry.Vector.SubVec | public/main.js:347-353 | sub of a plain value. |
| Geometry.Vector.ScaleInPlace | public/main.js:354-360 | scale(s): both coordinates times s. |
| Geometry.Vector.ProjectInPlace | public/main.js:361-368 | project onto an axis object. |
| Geometry.Vector.ProjectNInPlace | public/main.js:369-376 | projectN onto a unit axis object. |
| Geometry.Vector.ReflectInPlace | public/main.js:377-386 | reflect across an axis object, read before the write. |
| Geometry.Vector.ReflectNInPlace | public/main.js:387-396 | reflectN across a unit axis object. |
| Shapes.DedupShrinks | public/main.js:479-491 | The dropping pass of setPoints never empties a non-empty ring and only removes vertices. |
| Shapes.DedupSettles | public/main.js:479-491 | Afterwards, no vertex is followed round the ring by a distinct object with the same coordinates. |
| Shapes.DedupKeepsSettled | public/main.js:479-491 | A ring without such twins passes unchanged. |
| Shapes.DedupFromCoords | public/main.js:479-491 | For distinct vertex objects, the pass on objects and the pass on coordinates agree. |
| Shapes.DedupCoordsKeeps | public/main.js:479-491 | A coordinate ring with no vertex equal to the next is kept. |
| Shapes.WorldPoints | public/main.js:545-551 | One world vertex per local vertex: offset added, then rotated when the angle is non-zero. |
| Shapes.EdgesOf | public/main.js:552-555 | Edge k runs from vertex k to the next vertex round the ring. |
| Shapes.NormalsOf | public/main.js:556 | Normal k is edge k's perpendicular, normalized. |
| Shapes.WorldPointsUnmoved | public/main.js:545-551 | With no offset and no angle, world space is local space. |
| Shapes.NormalsOrthogonal | public/main.js:556 | Every normal is orthogonal to its edge, whatever the square root returns. |
| Shapes.EdgesCloseRing | public/main.js:552-555 | The edges add up to the zero vector. |
| Shapes.Polygon.constructor | public/main.js:415-429 | A new polygon has angle 0 and no offset. Its vertices are the given ones after the dropping pass, and its derived arrays are current. |
| Shapes.Polygon.SetPoints | public/main.js:471-496 | When the vertex count changes, the kept vertices are the dropping pass of the input; otherwise the input is taken as it is. Either way the derived arrays are one per vertex and current. |
| Shapes.Polygon.SetAngle | public/main.js:498-504 | The angle is replaced and the derived arrays recomputed. |
| Shapes.Polygon.SetOffset | public/main.js:505-511 | The offset is replaced and the derived arrays recomputed. |
| Shapes.Polygon.Recalc | public/main.js:535-559 | calcPoints, edges and normals become WorldPoints, EdgesOf and NormalsOf of the current vertices, offset and angle. |
| Shapes.BoxRingKept | public/main.js:620-623 | A box with non-zero sides keeps all four corners through setPoints. |
| Shapes.Box.ToPolygon | public/main.js:620-623 | toPolygon: a new polygon at the box position with corners (0,0), (w,0), (w,h), (0,h), which are kept when w and h are non-zero. |
| Sat.FlattenBounds | public/main.js:903-917 | Every projection lies in [lo, hi]. Each bound is its start value or some vertex's projection. |
| Sat.FlattenAttained | public/main.js:903-917 | On a non-empty vertex list with finite projections, both bounds are attained by a vertex. |
| Sat.SeparatesOnSymmetric | public/main.js:850-865 | An axis separates A from B exactly when it separates B from A. |
| Sat.Cleared | public/main.js:640-646 | clear sets both flags true and the overlap to Number.MAX_VALUE, and keeps the rest. |
| Sat.AxisDetailsMonotone | public/main.js:866-895 | The overlap never grows and is replaced only by a strictly smaller magnitude, so a tie keeps the earlier axis. The normal then becomes the axis or its reverse, and a flag only goes from true to false. |
| Sat.FoldMonotone | public/main.js:722-731 | The same holds over a run of axes. |
| Sat.FoldContainment | public/main.js:866-888 | After a run, aInB holds exactly when A's range lies within B's on every axis. bInA is the same except that equal low ends count against B. |
| Sat.FlagsExclusive | public/main.js:866-888 | After at least one axis, the two flags are not both true. |
| Sat.FirstSeparating | public/main.js:722-731 | The axes before the returned position do not separate, and the axis at it does. |
| Sat.ScanStep | public/main.js:722-731 | One loop step either finds the first separating axis or passes it. |
| Sat.PolygonsHitIff | public/main.js:714-739 | The polygons collide exactly when none of the tried axes separates them. |
| Sat.PolygonsHitSymmetric | public/main.js:714-739 | The answer does not depend on which polygon is A. |
| Sat.FirstSeparatingAppend | public/main.js:722-731 | When A's normals do not separate, the search goes on into B's. |
| Sat.FoldAppend | public/main.js:722-731 | Bookkeeping over two lists in turn is bookkeeping over their concatenation. |
| Sat.PolygonsScanFromDirection | public/main.js:717 | After clear, a scan's record depends on the old record only through its overlap direction. |
| Sat.PolygonsScanStopsInA | public/main.js:722-726 | When one of A's normals separates, B's normals are never tried. |
| Sat.PolygonsScanGoesOn | public/main.js:727-731 | Otherwise the scan continues over B's normals from where A's left the record. |
| Sat.ShortCircuit | public/main.js:722-731 | Axes after a separating one change neither the answer nor the record. |
| Sat.MiddleRegionOnSegment | public/main.js:919-929 | For a non-zero edge, the middle region is where the point's projection falls between the edge's ends. |
| Sat.Candidate | public/main.js:814-817 | A candidate replaces the record's overlap and normal only when its magnitude is strictly smaller. |
| Sat.VertexStep | public/main.js:767-778 | At a vertex, the shapes are apart exactly when the centre is farther than the radius. |
| Sat.MiddleStep | public/main.js:798-813 | Along an edge, the shapes are apart exactly when the centre is outside by more than the radius. |
| Sat.EdgeStep | public/main.js:752-818 | One edge never worsens the record. |
| Sat.LeftStep | public/main.js:762-780 | The left region never worsens the record. |
| Sat.RightStep | public/main.js:781-797 | The right region never worsens the record. |
| Sat.CircleScan | public/main.js:752-818 | A scan over the edges never worsens the record. |
| Sat.CircleScanApartStays | public/main.js:768-773 | Once an edge proves the shapes apart, later edges change neither the answer nor the record. |
| Sat.CircleScanDetailAgnostic | public/main.js:752-818 | Detailed and plain tests give the same yes/no answer. |
| Sat.Concluded | public/main.js:733-735 | After a detailed hit, overlapV is overlapN scaled by the overlap. |
| Sat.MirrorInvolutive | public/main.js:836-846 | Mirroring twice restores the record. Mirroring keeps the overlap and the relation overlapV = overlapN × overlap. |
| Sat.CentreOffset | public/main.js:690 | The difference vector runs from A's centre to B's. |
| Sat.CirclesHitSymmetric | public/main.js:690-697 | The circle-circle answer does not depend on which circle is A. |
| Sat.CirclesHitByDistance | public/main.js:690-697 | With a true square root, circles collide exactly when the distance is at most the radius sum. |
| Sat.CirclesContainment | public/main.js:706-707 | Both containment flags hold only for equal radii. |
| Sat.PointInCircleAsCircle | public/main.js:669-674 | A point is in a circle exactly when a zero-radius circle at the point touches it. |
| Collision.SwapTop | public/main.js:852-863 | Exchanging the top two entries keeps the stack's contents. |
| Collision.RestackPermutes | public/main.js:769-780 | Every return path of testPolygonCircle gives back the same multiset of scratch vectors. |
| Collision.CollisionDetails.constructor | public/main.js:628-638 | A new record: flags true, overlap Number.MAX_VALUE, two distinct fresh vectors. |
| Collision.CollisionDetails.Clear | public/main.js:640-646 | clear in place. |
| Collision.CollisionDetails.Conclude | public/main.js:733-735 | The shapes recorded, and overlapV set to overlapN scaled by the overlap. |
| Collision.Collider.constructor | public/main.js:651-666 | Ten distinct scratch vectors, five distinct scratch arrays (empty in the source, two entries here; both entries are written before any read), a cleared record and the tiny test box. |
| Collision.Collider.FlattenPointsOn | public/main.js:903-917 | result[0] and result[1] are the least and greatest projections, as Flatten gives them. |
| Collision.Collider.IsSeparatingAxis | public/main.js:850-901 | The answer is whether the ranges are apart. When they are not, the record gets the axis's bookkeeping. The scratch vector comes back in place, and the two arrays come back exchanged. |
| Collision.Collider.SeparationTest | public/main.js:852-899 | Between taking and returning the scratch objects: the answer is whether the axis separates, and the record is unchanged on separation and otherwise gets AxisDetails. |
| Collision.Collider.AxisBookkeeping | public/main.js:866-895 | The detailed branch computes AxisDetails. |
| Collision.Collider.ScanAxes | public/main.js:722-731 | The loop stops at the first separating axis, and the record is the fold over the axes before it. |
| Collision.Collider.ScanPolygons | public/main.js:717-731 | From clear to the answer: hit is PolygonsHit over A's normals then B's, and the record is PolygonsScan. |
| Collision.Collider.TestPolygonPolygon | public/main.js:714-739 | hit is "no normal of A, then of B, separates". The record is the scan, concluded on a detailed hit. The stacks keep their objects. |
| Collision.Collider.EdgeTest | public/main.js:752-818 | One edge of the polygon-circle loop computes EdgeStep. |
| Collision.Collider.LeftTest | public/main.js:762-780 | The left-region case computes LeftStep: the answer and the record it leaves. |
| Collision.Collider.RightTest | public/main.js:781-797 | The right-region case computes RightStep. |
| Collision.Collider.TakeOverlap | public/main.js:814-817 | The record takes the candidate overlap exactly when a candidate exists, the test is detailed and its magnitude is strictly smaller. |
| Collision.Collider.VertexTest | public/main.js:767-778 | The vertex check computes VertexStep. |
| Collision.Collider.MiddleTest | public/main.js:798-813 | The edge check computes MiddleStep. |
| Collision.Collider.TestPolygonCircle | public/main.js:741-830 | The answer and the record are CircleScan's. The scratch vectors come back on every path, early returns included, as the same multiset. |
| Collision.Collider.TestCirclePolygon | public/main.js:832-848 | The polygon-circle result, with the record mirrored on a detailed hit. |
| Collision.Collider.TestCircleCircle | public/main.js:687-712 | The answer is CirclesHit, the record is CirclesDetails on a detailed hit, and the stack is unchanged. This is the corrected form. |
| Collision.Collider.TestCircleCircleAsWritten | public/main.js:687-712 | As written, the stack is one vector shorter after a detailed hit. |
| Collision.Collider.CircleCircleBody | public/main.js:690-708 | The answer is CirclesHit, and the record changes only on a detailed hit, to CirclesDetails. |
| Collision.Collider.RecordCircles | public/main.js:698-707 | The detailed record of two colliding circles. |
| Collision.Collider.PointInCircle | public/main.js:668-675 | The answer is the squared distance at most the squared radius, with the stack unchanged. |
| Collision.Collider.PointInPolygon | public/main.js:677-685 | A detailed test of the tiny box moved to the point; the answer is the hit and aInB. |
| Collision.LeakShrinksPool | public/main.js:698-708 | On a fresh collider, one detailed test of overlapping circles leaves nine scratch vectors. |
| Collision.BalancedKeepsPool | public/main.js:694-711 | With the vector given back, the stack stays at ten. |
| Obstacles.SquareRing | public/main.js:1025-1034 | A non-degenerate square payload keeps its four corners as polygon vertices. |
| Obstacles.QuadsHitSymmetric | public/main.js:955-969 | Whether two payloads collide does not depend on which one asks. |
| Obstacles.QuadsHitIff | public/main.js:955-969 | Two payloads collide exactly when no edge normal of either separates them. |
| Obstacles.QuadPolygon | public/main.js:955-969 | A fresh polygon at the origin whose vertices are the payload's corners after setPoints' dropping pass (QuadRing: each corner equal to its successor is dropped), with current normals. |
| Obstacles.PayloadPolygons | public/main.js:956-967 | The two polygons of collidesWith describe the two payloads: their pair and test axes are QuadPair and QuadAxes. |
| Obstacles.Without | public/main.js:952-954 | Filtering by id keeps exactly the entries with another id. |
| Obstacles.WithoutAbsent | public/main.js:952-954 | Filtering a list without the id gives the list back. |
| Obstacles.WithoutSingle | public/main.js:952-954 | A one-entry list keeps its entry exactly when the entry's id differs. |
| Obstacles.WithoutAppend | public/main.js:952-954 | Filtering a concatenation is concatenating the filtered parts, so the kept entries keep their order and their repeats. |
| Obstacles.WithoutIdempotent | public/main.js:952-954 | Filtering twice is filtering once. |
| Obstacles.Obstacle.constructor | public/main.js:936-942 | The new obstacle appends itself to the shared list. |
| Obstacles.Obstacle.EditObstacle | public/main.js:949-951 | The payload is replaced. |
| Obstacles.Obstacle.RemoveObstacle | public/main.js:952-954 | The obstacle's own reference is rebound to a filtered copy, and the shared list is untouched. |
| Obstacles.Obstacle.CollidesWith | public/main.js:955-969 | hit is QuadsHit of the two payloads, and the record is their detailed scan. |
| Actors.Confine | public/main.js:1154-1163 | A coordinate is confined to [0, far], and an inside coordinate is kept. |
| Actors.ConfineIsClamp | public/main.js:1154-1163 | Confining is clamping. |
| Actors.Stepped | public/main.js:1150-1163 | After move, x is in [0, width - size] when width >= size, and y is in [0, height - size] when height >= size. |
| Actors.Accelerate | public/main.js:1170-1171 | A velocity component stays in [-maxVelocity, maxVelocity]. Without input it does not grow; with input it is pushed by the input. |
| Actors.Rebound | public/main.js:1142-1143 | A bounce is the velocity less the overlap vector, times 0.8. |
| Actors.BounceStep | public/main.js:1137-1143 | One obstacle of collide, read off the collider's record. |
| Actors.BounceAppend | public/main.js:1135-1146 | The bounces accumulate in registry order. |
| Actors.BounceUntouched | public/main.js:1135-1146 | Obstacles not touched leave the velocity as it was. |
| Actors.ChainedBounce | public/main.js:1136-1146 | The state after the loop is the fold of the bounces. |
| Actors.Facing | public/main.js:1178-1196 | The payload after turn is centred on the character. |
| Actors.Weapon | public/main.js:1211-1224 | Facing angle 0, the weapon is the rectangle reaching size + range to the right. |
| Actors.InitialPosition | public/main.js:1015-1024 | When width and height are at least size + 2 * margin, both starting positions lie a margin inside the arena. |
| Actors.PlayerId | public/main.js:998 | An obstacle id is "player" followed by decimal digits that read back as the player number. |
| Actors.DecimalRoundTrip | public/main.js:998 | The decimal digits of a number read back as the number. |
| Actors.PlayerIdInjective | public/main.js:998 | Two players with the same obstacle id are the same player. |
| Actors.OpponentCollidable | public/main.js:1135-1136 | The opponent's obstacle survives collide's filter by the character's own id, so collide always tests it. |
| Actors.Opponent | public/main.js:1226 | The other player is a different player, 0 or 1. |
| Actors.OpponentMutual | public/main.js:1226 | Each player is the other's opponent. |
| Actors.EngageKeepsTracked | public/main.js:1199-1209 | Engaging keeps the cooldown flag matched by exactly one pending cooldown expiry. |
| Actors.ExpireKeepsTracked | public/main.js:1203-1208 | Any timer firing keeps the cooldown tracked. |
| Actors.Scheduled | public/main.js:1198-1209 | A run schedules no timers under cooldown. It schedules an attack's two timers when attacking, else a block's when blocking. |
| Actors.ActedSchedules | public/main.js:1321-1322 | attack then block appends exactly the scheduled timers and sets the cooldown when any were scheduled. |
| Actors.ActedSettles | public/main.js:1321-1322 | Right after a run, another run schedules nothing. |
| Actors.ActedOnce | public/main.js:1321-1322 | Acting twice without a timer firing in between is acting once. |
| Actors.RunActs | public/main.js:1316-1324 | A run has an outcome exactly when the character is active, attacking and without cooldown. An active run leaves the action and timers as Acted gives them, and an inactive run changes nothing. A win leaves the character inactive; any other outcome keeps its activity. |
| Actors.RunSpends | public/main.js:1316-1324 | After a run nothing is left to attack or engage. |
| Actors.RunsSpent | public/main.js:1325-1329 | From such a state, k runs give k Idle outcomes and keep the activity, action and timers. An inactive character stays exactly as it was. |
| Actors.RunsFirst | public/main.js:1325-1329 | 1 + k runs are one run followed by k runs from where it left off. |
| Actors.RunsInactive | public/main.js:1325-1329 | The runs of an inactive character do not depend on the scene. |
| Actors.TickActsOnce | public/main.js:1325-1329 | Of the 1 + k runs of a tick only the first can have an outcome, exactly when active, attacking and without cooldown. The action and timers end as after one run, and an inactive character is unchanged. |
| Actors.Character.constructor | public/main.js:974-1005 | An inactive character at rest at its start, facing angle 0, with its square obstacle appended to the shared list. |
| Actors.Character.Move | public/main.js:1148-1171 | The position steps and is confined, the obstacle becomes the square there, and the velocity is accelerated. |
| Actors.Character.Turn | public/main.js:1173-1197 | The character faces the target, and the obstacle becomes the facing payload. |
| Actors.Character.Collide | public/main.js:1134-1147 | The velocity and the record's direction are the fold of the bounces over the other obstacles, in registry order. |
| Actors.Character.Contact | public/main.js:1137-1143 | The test of one obstacle: the record's direction and the velocity follow BounceOnce, and a hit bounces off the record's overlap vector. |
| Actors.Character.BounceOff | public/main.js:1137-1143 | One obstacle of collide: the velocity and direction become BounceOnce of the old ones; the pose, action and timers stay. |
| Actors.Character.Block | public/main.js:1270-1280 | The new state is Braced of the old one: nothing changes unless blocking without cooldown; then the cooldown goes on and both timers are scheduled. |
| Actors.Character.Expire | public/main.js:1203-1208 | A timer's callback clears its flag, and the timer is no longer pending. |
| Actors.Character.PressAttack | public/main.js:1100-1111 | The attack intent is set only without cooldown, and from a key only while active. |
| Actors.Character.PressBlock | public/main.js:1112-1123 | The block intent is set under the same gating. |
| Actors.Character.SetActive | public/main.js:1130-1133 | The new state is Reset of the old one: back at the starting position at rest, moved once (position, velocity and square payload as move leaves them), then (in)active. |
| Actors.Character.Swing | public/main.js:1236-1248 | The answer is QuadsHit of the weapon and the opponent's payload, and the record's direction is the one the scan of the two leaves. |
| Actors.Character.Strike | public/main.js:1225-1260 | The new state, record direction and outcome are Struck of the old ones. Against a blocking opponent the outcome is Blocked and nothing changes. Otherwise a weapon hit is Won, with both players reset and inactive, and a miss is Missed, with only the direction changed. The opponent changes only on a win. |
| Actors.Character.Settle | public/main.js:1249-1259 | A hit is Won and resets both players, inactive; a miss is Missed and changes neither. |
| Actors.Character.Finish | public/main.js:2414-2431 | The countdown listener resets both players and sets them inactive. |
| Actors.Character.Attack | public/main.js:1198-1210 | The new state, record direction and outcome are Attacked of the old ones: Idle with nothing changed unless active, attacking and without cooldown; otherwise the attack and cooldown are engaged and the strike follows. The opponent changes only on a win. |
| Actors.Character.ExecuteCharacterActions | public/main.js:1316-1324 | The new state, record direction and outcome are one Run against the scene at the start: move, turn to the opponent, bounce off the other obstacles in registry order, attack, block. The opponent changes only on a win. Short of a win, the scene (the opponent's position, payload and guard, and the other obstacles' payloads) is as it was. |
| Actors.Character.Travel | public/main.js:1318-1320 | The new state and record direction are Collided of Turned of Moved of the old state: move, turn, then the bounces off the other obstacles. |
| Actors.Character.Reposition | public/main.js:1318-1319 | The new state is Turned of Moved of the old one. |
| Actors.Character.Fight | public/main.js:1321-1322 | The new state, record direction and outcome are Fought of the old ones: Attacked, then Braced. The opponent changes only on a win. |
| Actors.Character.OnNextTick | public/main.js:1325-1331 | The new state, record direction and outcomes are 1 + frameSkip Runs against the scene at the start of the tick. The opponent changes only when the first run wins. |
| Actors.Character.CatchUp | public/main.js:1327-1329 | From a state with nothing left to engage, the new state, direction and outcomes are frameSkip Runs; the opponent and the scene stay as they were. |
| Actors.Character.Rerun | public/main.js:1327-1329 | From a state with nothing left to engage, one Run that returns Idle and leaves nothing to engage; the opponent and the scene stay as they were. |
| Render.Round | public/main.js:1383-1384 | Math.round: the nearest integer, with halves rounded up. |
| Render.Shortfall | public/main.js:1384 | (60 - fps) / fps. |
| Render.FrameSkip | public/main.js:1383-1384 | The frame skip is never above 30. |
| Render.ShortfallBelow | public/main.js:1384 | The shortfall is below b exactly when b + 1 frames at the measured rate exceed 60 a second. |
| Render.NoSkipIff | public/main.js:1384 | No frame is skipped exactly when the measured rate is above 40. |
| Render.UnclampedSkip | public/main.js:1384 | For rates from 2 to 120 the clamp never binds. |
| Render.SkipKeepsPace | public/main.js:1384 | For rates from 2 to 120, (1 + frameSkip) × fps is within fps/2 of 60 runs a second. |
| Render.Renderer.constructor | public/main.js:1366-1372 | The counter starts at 0. |
| Render.Renderer.Tick | public/main.js:1379-1400 | frameCount is the old counter mod 120, the counter moves one past it, and frameSkip is FrameSkip of the measured rate. |
| Countdowns.FlashColor | public/main.js:166 | The winner's colour when it has a non-empty one, the default otherwise. |
| Countdowns.StopsOnCthStep | public/main.js:167-173 | From count c, each step lowers the count until the c-th step stops the countdown. |
| Countdowns.PlayAfterThreeSteps | public/main.js:149-173 | A started countdown resumes play on its third step. |
| Countdowns.Countdown.constructor | public/main.js:144-152 | No interval, count 0, the default flash, full opacity. |
| Countdowns.Countdown.StartTimer | public/main.js:157-174 | Count 3 and full opacity always. Without assets, a retry after 100 ms; otherwise the flash colour and a 650 ms interval. |
| Countdowns.Countdown.Tick | public/main.js:167-173 | The interval body is one Step, and the last step stops the timer. |
| Countdowns.Countdown.StopTimer | public/main.js:175-179 | The interval is cleared, and play is announced. |

## Left out

- Audio, gamepad vibration and polling, drawing, themes and asset loading are
  left out. They are I/O with no effect on the modelled state.
- Floating-point rounding is not modelled: numbers are exact reals. The values
  of `Math.sqrt`, `Math.cos`, `Math.sin` and `Math.atan2` are abstract.
- Geometry.Vector.ScaleInPlace: the two-factor form `scale(x, y)` is not
  modelled, because the engine only calls it with one factor.
- `Polygon.rotate`, `Polygon.translate`, `getAABB` and `getCentroid` are not
  modelled (public/main.js:512-533, 561-602). The game never calls them.
- `setPoints` also fills `_pointsGeneric`, which nothing reads. Its `splice`
  shortens the caller's array in place, and here only the polygon's copy
  shrinks; every caller passes a fresh array literal.
- The timers are events, not clocks. `setTimeout` callbacks are pending timers
  that `Actors.Character.Expire` fires in any order. `setInterval` ids are a
  parameter of `Countdowns.Countdown.StartTimer`. The retry of `startTimer`
  and each interval firing are separate calls.
- `requestAnimationFrame` is not modelled. The first `move` and `turn` of a new
  character and the turn that `reset` defers to the next frame are left out.
  `SetActive` therefore leaves the orientation as it was.
- The game's `countdown` listener is modelled only for its effect on the
  players. It does not model the score increment or the start of the
  countdown, which are GUI and countdown calls. The `play` listener's
  `togglePlayers(true)` is `SetActive(true)` on each player.
- `turn` reads the opponent through `players[]`. Here the opponent and its
  position are parameters, and a missing opponent (the `{x: 0, y: 0}`
  fallback) is not modelled.
- The speed factor is 1 (public/main.js:988) and is left out of the move and
  velocity arithmetic.
- The payload accessors `getId`/`getObject` are the fields `id`/`payload`.
- Render.FrameSkip: the measured rate is a whole number of frames per
  second. The case where `1 / secondsPassed` is infinite, which makes the
  frame skip NaN and runs no extra frames, is not modelled.
- Geometry.Project, Geometry.Reflect, Geometry.Vector.ProjectInPlace and
  Geometry.Vector.ReflectInPlace require a non-zero axis. The source divides
  by the axis's squared length, and a zero axis gives NaN coordinates, which
  exact reals do not have.
- Collision.Collider.TestPolygonCircle, Collision.Collider.ProbeOnStack,
  Collision.Collider.TopFour and Collision.Collider.TestCirclePolygon require
  at least four vectors on the collider's stack. The source pops a fourth
  only in a left Voronoi region (public/main.js:764).
- Collision.Collider.IsSeparatingAxis, Collision.Collider.TestPolygonPolygon,
  Collision.Collider.TestCircleCircle,
  Collision.Collider.TestCircleCircleAsWritten,
  Collision.Collider.PointInCircle, Collision.Collider.PointInPolygon and
  Obstacles.Obstacle.CollidesWith require one vector (and, where arrays are
  popped, two arrays) on the stacks. On an exhausted stack the source's
  `pop()` returns undefined, and the next `.copy` or property access throws
  a TypeError. That failure is not modelled.
- switchTheme, `captureEvent`, the stick handlers and the movement keys are
  left out. The movement intents are read as they stand.

## Findings

| source | as written | input that shows it | evidently intended | confidence | as-written member | corrected member |
|---|---|---|---|---|---|---|
| public/main.js:698-708 | The detailed branch of testCircleCircle returns the details record without pushing `differenceV` back onto `_T_VECTORS`. | A fresh collider and two overlapping circles, tested with details: one vector is gone. Ten such tests empty the stack, and the next `pop()` returns undefined. testCircleCircle has no call site in main.js (it appears only at its definition, public/main.js:687-688), so the leak is latent in this game. | Give the vector back on every path, as the other tests do. | not executed | Collision.Collider.TestCircleCircleAsWritten, Collision.LeakShrinksPool | Collision.Collider.TestCircleCircle, Collision.BalancedKeepsPool |
