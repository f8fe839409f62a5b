# AmongThem3D core, modelled in Dafny

AmongThem3D is a first-person walker for the browser. It uses a rendering
library for meshes and a rigid-body physics library for bodies. This project
models the part of the game that is the game's own logic, not library code:

- **Keyboard map** (`src/input.js`, `main.js`): the listeners that record
  key events in a shared map, the movement direction derived from it, and
  `checkMovementKeys`, the action record read once per frame.
- **Velocity-based movement** (`src/player.js`, `updatePlayerMovement`):
  it damps the horizontal velocity, adds or subtracts the camera's basis
  vectors for each held key, and sets the vertical velocity on a grounded
  jump.
- **Doors** (`main.js`):
  - creating a door;
  - the toggle with its 500 ms open/close animation;
  - the nearest-door selection behind the interact key and the proximity
    indicator.
- **Room walls** (`main.js`, `createRoom`): each wall line is split into
  segments around its doorways. One door is created per doorway and one wall
  box per segment.
- **The frame loop** (`main.js`, `animate`):
  - the capped time step;
  - the mesh/body sync that skips the player;
  - the door indicator;
  - the direct horizontal move of the player;
  - the jump, gravity and landing branches.
- **Collision groups** (`main.js`): the bit groups and the masks each kind of
  body receives.

Coordinates are exact reals. Library values come in as parameters:

- the clock reading;
- the grounding ray's verdict;
- the camera's front and side vectors;
- the results of `Math.sqrt`.

The door animation reschedules itself on every display frame through a
closure. Here the closure's captured state is a `pending` field of the door,
and one run of the closure is `Door.Step(now)`.

Modules:

- `Optional` and `Geometry` (`geometry.dfy`): vectors, interpolation,
  rigid bodies and meshes.
- `CollisionGroups` (`collision_groups.dfy`).
- `Input` (`input.dfy`).
- `MainInput` (`main_input.dfy`).
- `Player` (`player.dfy`).
- `Doors` (`doors.dfy`).
- `Walls` (`walls.dfy`).
- `Frame` (`frame.dfy`).

## Model

| member | source | states |
|---|---|---|
| Geometry.Lerp | main.js:1019-1020 | `lerpVectors` as `a + (b - a) * t`: `a` at 0, `b` at 1, and each component between its endpoints for `t` in [0, 1] |
| Geometry.NormSq | main.js:1091-1094 | the squared planar length is non-negative, and zero exactly for the zero vector |
| Geometry.PlanarDistSq | main.js:1296-1299 | the squared x-z distance between two positions is non-negative |
| Geometry.RigidBody.constructor | main.js:850-869 | a new body (the player's, created then placed at its start position) stands at its given position, at rest, with the identity orientation |
| Geometry.Mesh.constructor | main.js:874-888 | a new mesh (the player's mesh group, paired with the player's body) stands at its given position with the identity orientation |
| CollisionGroups.GroupsAreDistinctBits | main.js:152-160 | the seven collision groups are single bits and pairwise disjoint |
| CollisionGroups.PlayerContacts | main.js:857-858 | the player interacts with walls, objects and doors in both directions of the mask rule, and its mask excludes the task and vent groups |
| CollisionGroups.WorldContacts | main.js:174-175 | walls list objects in their mask but objects (main.js:241-242) do not list walls, so the two never interact; doors (main.js:934-935) and walls do not interact either |
| CollisionGroups.GroundProbeTargets | main.js:1275-1276 | the grounding ray's mask sees walls, floor and objects, and never a door or the player |
| Input.AxisValue | src/input.js:25-36 | one axis is 1 exactly when its second-tested key is held, -1 exactly when only the first is, and 0 exactly when neither is |
| Input.Keyboard.constructor | src/input.js:2 | the keyboard map starts empty |
| Input.Keyboard.IsKeyPressed | src/input.js:49-51 | true only for a code stored with the value `true`; a code never seen reports false |
| Input.Keyboard.OnKeyDown | src/input.js:6-10 | a keydown stores `true` under the event's code, and every other entry is unchanged |
| Input.Keyboard.OnKeyUp | src/input.js:12-16 | a keyup stores `false` under the event's code, and every other entry is unchanged |
| Input.MovementDirection | src/input.js:22-46 | (0, 0) with no movement key held. S overrides W and D overrides A, with each sign an if-and-only-if on the held keys. A single axis gives exactly ±1 on it and 0 on the other. A diagonal has unit length, equal magnitudes and the signs kept |
| Input.UnitDiagonal | src/input.js:39-43 | a component of ±1 divided by the square root of 2 squares to one half and keeps its sign |
| MainInput.Alias | main.js:76-84 | the extra entry a key event writes is always one of the nine movement, arrow or space codes |
| MainInput.AfterKeyEvent | main.js:71-99 | after an event the code and the key's alias hold the event's value, and every other entry is unchanged |
| MainInput.OnKeyDown | main.js:71-85 | the keydown listener leaves the map equal to `AfterKeyEvent(old, code, key, true)` |
| MainInput.OnKeyUp | main.js:87-102 | the keyup listener leaves the map equal to `AfterKeyEvent(old, code, key, false)` |
| MainInput.CheckMovementKeys | main.js:105-123 | each action is on exactly when one of its codes (`KeyW`/`ArrowUp`, `KeyS`/`ArrowDown`, `KeyA`/`ArrowLeft`, `KeyD`/`ArrowRight`) or one of its lower- or upper-case letter entries is held; jump exactly when `Space` or `" "` is held |
| MainInput.KeyDownSetsAction | main.js:76-123 | a keydown whose key is a WASD letter in either case, an arrow, or space turns the matching action of `checkMovementKeys` on, whatever code the browser reports |
| MainInput.KeyDownKeepsPressed | main.js:71-85 | a keydown never clears an entry that was held |
| MainInput.KeyDownKeepsActions | main.js:71-123 | a keydown never turns an action of `checkMovementKeys` off |
| MainInput.KeyUpClearsForward | main.js:87-123 | after releasing W, forward stays on exactly when a stray "w"/"W" entry or the up arrow is still held |
| MainInput.PressThenRelease | main.js:71-99 | a press followed by the matching release leaves the map as the release alone would |
| Player.Contribution | src/player.js:61-76 | a pair of opposing keys contributes `amount`, `-amount`, or 0 when both or neither are held |
| Player.Steer | src/player.js:57-81 | the in-order damping, per-key additions and subtractions, and the jump produce exactly the closed-form `SteeredVelocity` |
| Player.UpdatePlayerMovement | src/player.js:51-82 | the body's new velocity is `KeyVelocity` of the old velocity, with per-key amounts `front * moveSpeed * timeStep` and `side * moveSpeed * timeStep` and jump velocity `jumpForce * timeStep`; the position and the orientation are unchanged |
| Player.NoKeysOnlyDamps | src/player.js:57-81 | for any key map with no movement key held (absent or released), the result is exactly 0.95 times the old horizontal velocity, and y is untouched unless Space is held while grounded |
| Player.ForwardBackCancel | src/player.js:61-68 | holding forward and back together gives the same velocity as holding neither |
| Player.LeftRightCancel | src/player.js:69-76 | holding left and right together gives the same velocity as holding neither |
| Player.SingleKeyContribution | src/player.js:61-68 | forward alone adds exactly the front amounts to the damped velocity; back alone subtracts them |
| Player.SingleSideKeyContribution | src/player.js:69-76 | left alone adds exactly the side amounts to the damped velocity; right alone subtracts them |
| Player.JumpOnlyWhenGrounded | src/player.js:79-81 | the vertical velocity changes only when Space is held while grounded, and then becomes the jump velocity; otherwise it is untouched |
| Doors.OpenTarget | main.js:1001-1006 | the open target is the original position plus 2 on z for a horizontal door and plus 2 on x otherwise; y is kept, and the target differs from the original |
| Doors.Progress | main.js:1015-1016 | progress is at most 1, non-negative for non-negative elapsed time, 0 at the start, and 1 exactly once the 500 ms have passed |
| Doors.ProgressMonotonic | main.js:1015-1016 | progress never decreases as time passes |
| Doors.Door.constructor | main.js:895-948 | a created door is closed and idle, with mesh, frame and body at `(x, y + height/2, z)` and the door invariant established |
| Doors.Door.Step | main.js:1014-1037 | one animation frame puts the mesh at the interpolated position and keeps the body and frame with it. Below progress 1 the door stays animating with `isOpen` unchanged; at 1 the mesh is at the target, `isOpen` flips and `animating` clears |
| Doors.ToggleDoor | main.js:989-1077 | a null door is left alone and one already animating is unchanged. Otherwise an animation starts from the current rest position towards the other one (the open target or the original position) and its first frame runs at once: the mesh is at the interpolated position, and the door either stays animating with the animation pending or, at progress 1, sits at the target with `isOpen` flipped. The door invariant is kept |
| Doors.OpenThenClose | main.js:999-1076 | a completed open followed by a completed close leaves the door closed, idle, and with mesh and body at the original position |
| Doors.SelectionIsUnique | main.js:1086-1101 | the selection rule (in range, none in range strictly closer, every earlier door out of range or strictly farther) admits at most one answer |
| Doors.NearestDoor | main.js:1083-1101 | the strict-improvement scan returns the door the selection rule chooses: the nearest door within 3 units, the earliest on ties, or none when no door is in range |
| Doors.OnInteractKey | main.js:1080-1122 | "e" or "E" selects the door the selection rule chooses and toggles it, with the full effect `ToggleDoor` states; no other door changes. Any other key, or no door in range, changes nothing; every door keeps its invariant |
| Doors.CheckDoorProximity | main.js:1285-1314 | the indicator shows exactly when some door is within range |
| Walls.OnWall | main.js:545-552 | the filter keeps exactly the doorways whose centre lies on the wall line between its ends, each as many times as it is listed, and drops every other |
| Walls.OnWallAppend | main.js:545-552 | filtering a concatenation is the concatenation of the filtered parts, so the filter keeps the listed order |
| Walls.OnSide | main.js:618-631 | keeps exactly the doorways listed for the given side, each as many times as it is listed, and drops every other |
| Walls.OnSideAppend | main.js:618-631 | filtering a concatenation is the concatenation of the filtered parts, so the filter keeps the listed order |
| Walls.Insert | main.js:555-559 | inserting adds exactly one copy of the doorway, as a multiset |
| Walls.InsertMembers | main.js:555-559 | inserting adds no doorway other than the inserted one |
| Walls.InsertSorted | main.js:555-559 | inserting into an ordered list keeps it ordered along the wall |
| Walls.SortAlong | main.js:555-559 | the comparator sort orders the doorways along the wall's axis and is a permutation of its input |
| Walls.SortAlongMembers | main.js:555-559 | sorting keeps exactly the doorways it was given |
| Walls.AppendOrdered | main.js:570-611 | appending a segment that starts where every earlier one has ended keeps the segments ordered and within the wall |
| Walls.GapKeepsLayout | main.js:570-600 | emitting the gap before a doorway keeps the segment layout invariant |
| Walls.NoGapKeepsLayout | main.js:570-600 | passing a doorway without a gap keeps the segment layout invariant |
| Walls.PlaceDoorways | main.js:564-601 | the doorway loop creates exactly one door per doorway, in order, each the `createDoor` call for it; its segments are the gaps `Walls.Gaps` defines doorway by doorway, and its cursor ends just after the last doorway |
| Walls.GapsOnLine | main.js:570-578 | every gap before the doorways lies on the wall line with positive length, there is at most one per doorway, and a wall along neither axis gets none |
| Walls.GapsLayoutStep | main.js:570-600 | passing one more doorway on the wall, of non-negative width and not behind the previous one, keeps the gaps within the wall, in order, and behind the cursor |
| Walls.DropLastDoorway | main.js:555-564 | dropping the last of the sorted doorways on a wall leaves sorted doorways on the wall, none ahead of the one dropped |
| Walls.GapsLayout | main.js:564-601 | for doorways on the wall, sorted along it and of non-negative width, the gaps lie within the wall in increasing order and end by the last doorway, which the cursor has reached |
| Walls.WallDoors | main.js:580-595 | one door per doorway on the wall, in sorted order, each the `createDoor` call for its doorway |
| Walls.WallSegmentsShape | main.js:544-615 | every segment of a wall lies on the wall line with positive length, there is at most one more segment than doorways on the wall, and a wall along neither axis gets none |
| Walls.WallSegmentsWholeWall | main.js:604-612 | with no doorway on the wall, the whole wall is one segment when it has positive length along its axis, and there is none otherwise |
| Walls.WallSegmentsTail | main.js:604-612 | when the cursor stops short of the wall end, the last segment runs from the cursor to the wall end |
| Walls.WallSegmentsOrdered | main.js:544-615 | with doorways of non-negative width, the segments lie between the wall's ends, in increasing order along it |
| Walls.CreateWallSegments | main.js:544-615 | the statement-by-statement filter, sort, doorway loop and tail return exactly the segments `Walls.WallSegments` and the doors `Walls.WallDoors` define, so every fact proved of those (shape, whole wall, tail, order, one door per doorway) holds of its result |
| Walls.BuildWalls | main.js:642-661 | every box built has positive width and depth; when every segment has positive length, there is exactly one box per segment, centred on it and 0.2 thick |
| Walls.CoveringBoxAlongX | main.js:645-649 | the box for a segment along x is centred on it, as long as it and 0.2 deep |
| Walls.CoveringBoxAlongZ | main.js:650-655 | the box for a segment along z is centred on it, as long as it and 0.2 wide |
| Walls.EmptyRoomWalls | main.js:617-661 | the boxes covering a room's four full wall lines are exactly the four full-length walls |
| Walls.SideSegments | main.js:617-631 | one side's call returns exactly the segments and doors of `createWallSegments` over that side's wall line and the doorways listed for the side |
| Walls.WallSegmentsBuildable | main.js:544-615 | every segment of a wall has positive length along the axis its own end points choose, so each becomes a wall box |
| Walls.SideSegmentsBuildable | main.js:617-631 | every segment of one side of a room becomes a wall box |
| Walls.RoomSegmentsBuildable | main.js:617-639 | every segment of the four sides, concatenated, becomes a wall box |
| Walls.SideWithoutDoors | main.js:617-631 | a side with no doorway listed creates no door |
| Walls.SideWithoutDoorways | main.js:617-631 | a side with no doorway listed, of a room of positive size, is its whole wall line as one segment |
| Walls.EmptyRoomDoors | main.js:617-639 | a room without doorways creates no door |
| Walls.EmptyRoomSegments | main.js:617-639 | the segments of a room of positive size without doorways are its four full wall lines, north, east, south, west |
| Walls.CreateRoomWalls | main.js:617-661 | the doors are those of the four sides in order (none without doorways). There is exactly one wall per segment of the four sides, the i-th centred on the i-th segment, 0.2 thick and as long as it, each of positive size and the wall height; an empty room of positive size has exactly its four full-length walls |
| Frame.DeltaTime | main.js:1138-1140 | the step is at most 0.1 s and is 0 on the first frame (`lastTime` unset or 0). It is non-negative for a clock that does not go back, exact for gaps up to 100 ms, and capped beyond them |
| Frame.SyncMeshes | main.js:1150-1158 | every mesh whose body is not the player's takes its body's position and orientation; the player's mesh is untouched |
| Frame.MoveDirection | main.js:1186-1192 | no direction action gives (0, 0); forward alone gives the front vector, backward alone its negation, left alone the side vector, right alone its negation |
| Frame.NoDirectionNoMove | main.js:1186-1201 | with no direction action held, the direction and the displacement are zero, whatever length is reported |
| Frame.OpposingActionsCancel | main.js:1187-1192 | forward with backward, or left with right, give the direction of holding neither |
| Frame.Displacement | main.js:1195-1201 | no displacement when the reported length is not positive |
| Frame.DisplacementSpeed | main.js:1195-1199 | given the true length of a nonzero direction, the displacement has length 0.3 and points along the direction |
| Frame.DisplacementZero | main.js:1195-1201 | given the true length, the player moves exactly when the direction is nonzero |
| Frame.ScaledToSpeed | main.js:1196-1199 | normalising a nonzero direction and scaling it by the speed gives length 0.3, parallel to the direction and with positive dot product |
| Frame.ZeroLength | main.js:1195 | a length whose square is the squared norm is zero exactly for the zero vector |
| Frame.GroundedNeverSinks | main.js:1213-1223 | on the ground the body never sinks and ends at rest, or rising at 5 exactly when jumping |
| Frame.Vertical | main.js:1212-1223 | on the ground a jump lifts the body by 0.1 and sets the vertical velocity to 5, and without a jump the body rests at velocity 0; in the air gravity lowers the velocity by `9.8 * dt` and the height follows the new velocity |
| Frame.AirborneFalls | main.js:1216-1219 | in the air with a positive step the vertical velocity strictly drops, and a body not rising falls |
| Frame.Game.constructor | main.js:132-148 | no previous frame time, not grounded, indicator hidden |
| Frame.Game.Animate | main.js:1135-1232 | one frame records the clock and stores the ray's verdict. The indicator reflects the doors in range. The player moves by the displacement of the checked keys' direction and by the jump/gravity/landing branch, and keeps its orientation. Other meshes take their bodies' position and orientation, the player's mesh follows a horizontal move and keeps its orientation, and the camera ends at the player's position |
| Frame.MovePlayer | main.js:1194-1223 | the player's new position and velocity are the horizontal displacement plus the vertical branch, and its orientation is unchanged. Only the player's own mesh moves, and only on a horizontal move; no mesh's orientation changes |
| Frame.FollowPlayer | main.js:1203-1209 | the player's meshes take the player's position; every other mesh, and every orientation, is unchanged |

## Left out

- The physics step (`world.step`, main.js:1143) runs inside the physics library. A frame starts from the bodies as that step leaves them.
- The grounding raycast (`checkIfGrounded`, main.js:1252-1282) is library code. Its verdict is the `grounded` parameter of `Frame.Game.Animate`.
- The camera's basis vectors (main.js:1178-1184, src/player.js:53-54) are parameters. Quaternion application and `normalize` are library floating-point maths.
- Math.sqrt is not modelled:
  - `Input.MovementDirection` takes the square root of 2 as `root2`;
  - `Frame.Game.Animate` takes the direction's length as `length`.
- `Frame.Game.Animate` does not require that `length` is the true length of the direction. Its contract states the displacement through `Frame.Displacement` for any reported length. The speed and zero-move facts that need the true length are `Frame.DisplacementSpeed` and `Frame.DisplacementZero`.
- `Date.now()` readings are parameters. `Doors.ToggleDoor` takes two: the animation's start and the clock reading of its first frame.
- DOM and user-interface code is not modelled:
  - the indicator's style is the `indicatorVisible` field;
  - the debug panel, console logging, the random debug check (main.js:1167-1169), the 200 ms red highlight (main.js:1108-1115) and rendering are left out.
- `requestAnimationFrame` scheduling is modelled as the `pending` field; the loop that calls `Door.Step` each frame is not.
- `createDoor` (main.js:895-957) builds its meshes, frame sizes and physics shapes through libraries; only the positions and flags are modelled.
- The registry pushes in `createDoor` are not modelled. The door and its mesh/body pair go into the registries; the model's door keeps its body at its mesh position itself.
- `Frame.SyncMeshes` requires the registry's meshes to be distinct. This lets each mesh be updated on its own, and the game creates a new mesh for every pair. Aliased meshes are not modelled.
- `Frame.Game.Animate` copies body positions into the door meshes, but the `Doors.Door` objects are separate from the sync registry. The model does not connect the two.
- Room tables, corridors, lighting, materials and the other modules are not part of this model:
  - src/map.js, src/materials.js and src/physics.js;
  - src/utils.js and the wall body constructor `createWallWithMesh`;
  - src/main.js, a second frame loop without the player-skip rule;
  - the floor of `createRoom`.
- Numbers are exact reals, not JavaScript doubles. "Forward and back cancel" and the exact open/close round trip hold in the real-number model only.
- Doorway sides are the enumeration `Walls.Side`. Any side name other than the four is `Other` and belongs to no wall.
- Walls.SortAlong: a stable insertion sort, like JavaScript's sort, but stability is not proved. Only ordering and permutation are proved.
- Walls.CreateWallSegments: the last segment reaches the wall end only when the cursor stops short of it. A doorway whose centre is on the wall but whose half-width reaches past the end leaves no tail, so the contract states the conditional form.
- The player's collision mask (main.js:858) includes doors, while the log line at main.js:862 prints the mask without them. The model follows the mask the body is given.
