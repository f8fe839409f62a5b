/**
 * The per-frame loop of main.js (`animate`): the time step, the mesh sync, the
 * door indicator, and the direct movement of the player body.
 *
 * The clock reading, the grounding ray's verdict, the camera's horizontal
 * front and side vectors and the length `Math.sqrt` yields for the movement
 * direction all come in as parameters. The physics step the source runs first
 * is not part of this model: a frame starts from the bodies as that step
 * leaves them.
 */
module Frame {
  import opened Optional
  import opened Geometry
  import opened MainInput
  import opened Doors

  /** The longest time step a frame may take, in seconds. */
  const MAX_DELTA: real := 0.1
  /** How far the player moves in one frame while a direction key is held. */
  const MOVE_SPEED: real := 0.3
  /** The lift applied to the player's height when a jump starts. */
  const JUMP_LIFT: real := 0.1
  /** The upward velocity a jump starts with. */
  const JUMP_VELOCITY: real := 5.0
  /** The gravity the frame applies itself while the player is airborne. */
  const GRAVITY: real := 9.8

  /**
   * The frame's time step in seconds: the milliseconds since the previous
   * frame, capped at 0.1. The source writes `lastTime || now`, so a missing or
   * zero previous reading falls back to `now` and gives a step of 0.
   */
  function DeltaTime(now: real, lastTime: Option<real>): (dt: real)
    ensures dt <= MAX_DELTA
    ensures lastTime == None || lastTime == Some(0.0) ==> dt == 0.0
    ensures lastTime.Some? && lastTime.value != 0.0 && now >= lastTime.value ==> dt >= 0.0
    ensures lastTime.Some? && lastTime.value != 0.0 && now - lastTime.value <= 100.0 ==>
              dt == (now - lastTime.value) / 1000.0
    ensures lastTime.Some? && lastTime.value != 0.0 && now - lastTime.value >= 100.0 ==> dt == MAX_DELTA
  {
    var since := if lastTime.Some? && lastTime.value != 0.0 then lastTime.value else now;
    var raw := (now - since) / 1000.0;
    if raw < MAX_DELTA then raw else MAX_DELTA
  }

  /** A mesh and the body it follows, as the registry pairs them. */
  datatype MeshPair = MeshPair(mesh: Mesh, body: RigidBody)

  /** The meshes of the registry. */
  function Meshes(pairs: seq<MeshPair>): set<Mesh> {
    set i | 0 <= i < |pairs| :: pairs[i].mesh
  }

  /** Every pair has a mesh of its own. */
  predicate DistinctMeshes(pairs: seq<MeshPair>) {
    forall i, j :: 0 <= i < |pairs| && 0 <= j < |pairs| && i != j ==> pairs[i].mesh != pairs[j].mesh
  }

  /**
   * The sync loop: every mesh whose body is not the player's takes its body's
   * position and orientation; the player's mesh is skipped.
   */
  method SyncMeshes(pairs: seq<MeshPair>, player: RigidBody)
    requires DistinctMeshes(pairs)
    modifies Meshes(pairs)
    ensures forall i :: 0 <= i < |pairs| && pairs[i].body != player ==>
              pairs[i].mesh.position == pairs[i].body.position && pairs[i].mesh.quaternion == pairs[i].body.quaternion
    ensures forall i :: 0 <= i < |pairs| && pairs[i].body == player ==>
              pairs[i].mesh.position == old(pairs[i].mesh.position) && pairs[i].mesh.quaternion == old(pairs[i].mesh.quaternion)
  {
    for i := 0 to |pairs|
      invariant forall k :: 0 <= k < i && pairs[k].body != player ==>
                  pairs[k].mesh.position == pairs[k].body.position && pairs[k].mesh.quaternion == pairs[k].body.quaternion
      invariant forall k :: i <= k < |pairs| || (0 <= k < i && pairs[k].body == player) ==>
                  pairs[k].mesh.position == old(pairs[k].mesh.position) && pairs[k].mesh.quaternion == old(pairs[k].mesh.quaternion)
    {
      var pair := pairs[i];
      if pair.body == player {
        continue;
      }
      pair.mesh.position := pair.body.position;
      pair.mesh.quaternion := pair.body.quaternion;
    }
  }

  /**
   * The movement direction before normalising: the front vector added for
   * forward and subtracted for backward, the side vector added for left and
   * subtracted for right.
   */
  function MoveDirection(keys: MovementKeys, front: Planar, side: Planar): (d: Planar)
    ensures NoDirection(keys) ==> d == Planar(0.0, 0.0)
    ensures keys.forward && !keys.backward && !keys.left && !keys.right ==> d == front
    ensures keys.backward && !keys.forward && !keys.left && !keys.right ==> d == Planar(-front.x, -front.z)
    ensures keys.left && !keys.right && !keys.forward && !keys.backward ==> d == side
    ensures keys.right && !keys.left && !keys.forward && !keys.backward ==> d == Planar(-side.x, -side.z)
  {
    var x := 0.0 + (if keys.forward then front.x else 0.0) - (if keys.backward then front.x else 0.0)
                 + (if keys.left then side.x else 0.0) - (if keys.right then side.x else 0.0);
    var z := 0.0 + (if keys.forward then front.z else 0.0) - (if keys.backward then front.z else 0.0)
                 + (if keys.left then side.z else 0.0) - (if keys.right then side.z else 0.0);
    Planar(x, z)
  }

  /** With no direction action the direction is zero, and so is the displacement, whatever length is reported. */
  lemma NoDirectionNoMove(keys: MovementKeys, front: Planar, side: Planar, length: real)
    requires NoDirection(keys)
    ensures MoveDirection(keys, front, side) == Planar(0.0, 0.0)
    ensures Displacement(MoveDirection(keys, front, side), length) == Planar(0.0, 0.0)
  {
  }

  /** Forward with backward, or left with right, cancel out: the direction is as if neither were held. */
  lemma OpposingActionsCancel(keys: MovementKeys, front: Planar, side: Planar)
    ensures keys.forward && keys.backward ==>
              MoveDirection(keys, front, side) == MoveDirection(keys.(forward := false, backward := false), front, side)
    ensures keys.left && keys.right ==>
              MoveDirection(keys, front, side) == MoveDirection(keys.(left := false, right := false), front, side)
  {
  }

  /**
   * The horizontal displacement of one frame: when the direction's length (the
   * value `Math.sqrt` yields for it) is positive, the direction multiplied by
   * the reciprocal of that length, then by the move speed; none otherwise.
   */
  function Displacement(dir: Planar, length: real): (d: Planar)
    ensures length <= 0.0 ==> d == Planar(0.0, 0.0)
  {
    if length > 0.0 then
      var inv := 1.0 / length;
      Planar(dir.x * inv * MOVE_SPEED, dir.z * inv * MOVE_SPEED)
    else
      Planar(0.0, 0.0)
  }

  /**
   * Given the true length of a nonzero direction, the displacement has the move
   * speed as its length and points along the direction: parallel to it and at
   * a positive dot product with it.
   */
  lemma DisplacementSpeed(dir: Planar, length: real)
    requires length > 0.0 && length * length == NormSq(dir)
    ensures var d := Displacement(dir, length);
            NormSq(d) == MOVE_SPEED * MOVE_SPEED && d.x * dir.z == d.z * dir.x && d.x * dir.x + d.z * dir.z > 0.0
  {
    ScaledToSpeed(dir, length, 1.0 / length);
  }

  /** Given the true length, the player moves exactly when the direction is nonzero. */
  lemma DisplacementZero(dir: Planar, length: real)
    requires length >= 0.0 && length * length == NormSq(dir)
    ensures Displacement(dir, length) == Planar(0.0, 0.0) <==> dir == Planar(0.0, 0.0)
  {
    ZeroLength(dir, length);
    if length > 0.0 {
      DisplacementSpeed(dir, length);
    }
  }

  /**
   * A nonzero direction multiplied by the reciprocal of its length and by the
   * speed has the speed as its length and points the same way.
   */
  lemma ScaledToSpeed(dir: Planar, length: real, inv: real)
    requires length > 0.0 && length * length == NormSq(dir) && inv == 1.0 / length
    ensures var d := Planar(dir.x * inv * MOVE_SPEED, dir.z * inv * MOVE_SPEED);
            NormSq(d) == MOVE_SPEED * MOVE_SPEED && d.x * dir.z == d.z * dir.x && d.x * dir.x + d.z * dir.z > 0.0
  {
    var n := NormSq(dir);
    var c := inv * MOVE_SPEED;
    Reciprocal(length);
    Reassociate(length, inv, MOVE_SPEED);
    Reassociate(dir.x, inv, MOVE_SPEED);
    Reassociate(dir.z, inv, MOVE_SPEED);
    ScaleSquares(c, dir.x, dir.z);
    SquareOfScaled(c, length, n);
    MulPos(c, n);
  }

  /** A length whose square is the squared norm is zero exactly for the zero vector. */
  lemma ZeroLength(dir: Planar, length: real)
    requires length >= 0.0 && length * length == NormSq(dir)
    ensures length == 0.0 <==> dir == Planar(0.0, 0.0)
  {
    RootOfZero(NormSq(dir), length);
  }

  /** A non-negative square root is zero exactly for zero. */
  lemma RootOfZero(n: real, root: real)
    requires root >= 0.0 && root * root == n
    ensures root == 0.0 <==> n == 0.0
  {
    SquareZero(root);
  }

  lemma Reciprocal(l: real)
    requires l > 0.0
    ensures (1.0 / l) * l == 1.0 && 1.0 / l > 0.0
  {
  }

  lemma Reassociate(a: real, i: real, s: real)
    ensures a * i * s == (i * s) * a
  {
  }

  /** Scaling both components by `c` scales the squared norm by `c * c` and the dot product with the original by `c`. */
  lemma ScaleSquares(c: real, a: real, b: real)
    ensures (c * a) * (c * a) + (c * b) * (c * b) == (c * c) * (a * a + b * b)
    ensures (c * a) * a + (c * b) * b == c * (a * a + b * b)
    ensures (c * a) * b == (c * b) * a
  {
  }

  lemma SquareOfScaled(c: real, l: real, n: real)
    requires l * l == n && c * l == MOVE_SPEED
    ensures (c * c) * n == MOVE_SPEED * MOVE_SPEED
  {
    calc {
      (c * c) * n;
      (c * c) * (l * l);
      (c * l) * (c * l);
    }
  }

  lemma MulPos(a: real, b: real)
    requires a > 0.0 && b > 0.0
    ensures a * b > 0.0
  {
  }

  /**
   * The player's vertical motion of one frame: a grounded jump lifts the body
   * and gives it the jump velocity; in the air gravity reduces the velocity
   * and the body moves by the new velocity; on the ground the vertical
   * velocity is cleared.
   */
  function Vertical(y: real, vy: real, jump: bool, grounded: bool, dt: real): (r: (real, real))
    ensures grounded && jump ==> r == (y + JUMP_LIFT, JUMP_VELOCITY)
    ensures grounded && !jump ==> r == (y, 0.0)
    ensures !grounded ==> r.1 == vy - GRAVITY * dt && r.0 == y + r.1 * dt
  {
    if jump && grounded then (y + JUMP_LIFT, JUMP_VELOCITY)
    else if !grounded then (y + (vy - GRAVITY * dt) * dt, vy - GRAVITY * dt)
    else (y, 0.0)
  }

  /** On the ground the body never sinks and ends the frame at rest or rising at the jump velocity. */
  lemma GroundedNeverSinks(y: real, vy: real, jump: bool, dt: real)
    ensures var (y', vy') := Vertical(y, vy, jump, true, dt);
            y' >= y && (vy' == 0.0 || vy' == JUMP_VELOCITY) && (jump <==> vy' == JUMP_VELOCITY)
  {
  }

  /** In the air with a positive step the vertical velocity strictly drops, and a body not rising falls. */
  lemma AirborneFalls(y: real, vy: real, jump: bool, dt: real)
    requires dt > 0.0
    ensures var (y', vy') := Vertical(y, vy, jump, false, dt);
            vy' < vy && (vy <= 0.0 ==> y' < y)
  {
    MulPos(GRAVITY, dt);
    assert vy - GRAVITY * dt < vy;
    if vy <= 0.0 {
      assert vy - GRAVITY * dt < 0.0;
      MulPos(-(vy - GRAVITY * dt), dt);
      assert (vy - GRAVITY * dt) * dt < 0.0;
    }
  }

  /** The game state one frame reads and writes. */
  class Game {
    /** The player's physics body. */
    const player: RigidBody
    /** The mesh/body registry. */
    const pairs: seq<MeshPair>
    /** The door registry. */
    const doors: seq<Door>
    /** The clock reading of the previous frame, if any. */
    var lastTime: Option<real>
    var cameraPosition: Vec3
    var isGrounded: bool
    var indicatorVisible: bool

    constructor (player: RigidBody, pairs: seq<MeshPair>, doors: seq<Door>)
      ensures this.player == player && this.pairs == pairs && this.doors == doors
      ensures lastTime == None && !isGrounded && !indicatorVisible
    {
      this.player := player;
      this.pairs := pairs;
      this.doors := doors;
      lastTime := None;
      cameraPosition := Vec3(0.0, 0.0, 0.0);
      isGrounded := false;
      indicatorVisible := false;
    }

    /**
     * One frame. `grounded` is what the grounding ray reports, `front` and
     * `side` are the camera's horizontal basis vectors, and `length` is the
     * length of the movement direction.
     */
    method Animate(now: real, keys: map<string, bool>, grounded: bool, front: Planar, side: Planar, length: real)
      requires DistinctMeshes(pairs)
      modifies this, player, Meshes(pairs)
      ensures lastTime == Some(now) && isGrounded == grounded
      ensures indicatorVisible <==>
                exists j :: 0 <= j < |doors| && InRange(old(player.position), doors[j].bodyPosition)
      ensures var m := CheckMovementKeys(keys);
              var d := Displacement(MoveDirection(m, front, side), length);
              var (y', vy') := Vertical(old(player.position.y), old(player.velocity.y), m.jump, grounded,
                                        DeltaTime(now, old(lastTime)));
              && player.position == Vec3(old(player.position.x) + d.x, y', old(player.position.z) + d.z)
              && player.velocity == old(player.velocity).(y := vy')
      ensures player.quaternion == old(player.quaternion)
      ensures cameraPosition == player.position
      ensures forall i :: 0 <= i < |pairs| && pairs[i].body != player ==>
                pairs[i].mesh.position == pairs[i].body.position && pairs[i].mesh.quaternion == pairs[i].body.quaternion
      ensures forall i :: 0 <= i < |pairs| && pairs[i].body == player ==>
                pairs[i].mesh.position == (if length > 0.0 then player.position.(y := old(player.position.y))
                                           else old(pairs[i].mesh.position))
                && pairs[i].mesh.quaternion == old(pairs[i].mesh.quaternion)
    {
      var dt := DeltaTime(now, lastTime);
      lastTime := Some(now);
      SyncMeshes(pairs, player);
      isGrounded := grounded;
      indicatorVisible := CheckDoorProximity(doors, player.position);
      var m := CheckMovementKeys(keys);
      MovePlayer(player, pairs, MoveDirection(m, front, side), length, m.jump, isGrounded, dt);
      cameraPosition := player.position;
    }
  }

  /**
   * The direct movement of the player body within a frame: the horizontal move
   * (which also brings the player's own mesh along), then the jump, gravity or
   * landing branch on the height and vertical velocity.
   */
  method MovePlayer(player: RigidBody, pairs: seq<MeshPair>, dir: Planar, length: real, jump: bool, grounded: bool, dt: real)
    requires DistinctMeshes(pairs)
    modifies player, Meshes(pairs)
    ensures var d := Displacement(dir, length);
            var (y', vy') := Vertical(old(player.position.y), old(player.velocity.y), jump, grounded, dt);
            && player.position == Vec3(old(player.position.x) + d.x, y', old(player.position.z) + d.z)
            && player.velocity == old(player.velocity).(y := vy')
    ensures player.quaternion == old(player.quaternion)
    ensures forall i :: 0 <= i < |pairs| && pairs[i].body != player ==> pairs[i].mesh.position == old(pairs[i].mesh.position)
    ensures forall i :: 0 <= i < |pairs| && pairs[i].body == player ==>
              pairs[i].mesh.position == if length > 0.0 then player.position.(y := old(player.position.y))
                                        else old(pairs[i].mesh.position)
    ensures forall i :: 0 <= i < |pairs| ==> pairs[i].mesh.quaternion == old(pairs[i].mesh.quaternion)
  {
    if length > 0.0 {
      var d := Displacement(dir, length);
      player.position := player.position.(x := player.position.x + d.x, z := player.position.z + d.z);
      FollowPlayer(pairs, player);
    }
    if jump && grounded {
      player.position := player.position.(y := player.position.y + JUMP_LIFT);
      player.velocity := player.velocity.(y := JUMP_VELOCITY);
    } else if !grounded {
      player.velocity := player.velocity.(y := player.velocity.y - GRAVITY * dt);
      player.position := player.position.(y := player.position.y + player.velocity.y * dt);
    } else {
      player.velocity := player.velocity.(y := 0.0);
    }
  }

  /** The loop that moves the player's own mesh to the player body after a horizontal move. */
  method FollowPlayer(pairs: seq<MeshPair>, player: RigidBody)
    requires DistinctMeshes(pairs)
    modifies Meshes(pairs)
    ensures forall i :: 0 <= i < |pairs| && pairs[i].body == player ==> pairs[i].mesh.position == player.position
    ensures forall i :: 0 <= i < |pairs| && pairs[i].body != player ==>
              pairs[i].mesh.position == old(pairs[i].mesh.position) && pairs[i].mesh.quaternion == old(pairs[i].mesh.quaternion)
    ensures forall i :: 0 <= i < |pairs| && pairs[i].body == player ==> pairs[i].mesh.quaternion == old(pairs[i].mesh.quaternion)
  {
    for i := 0 to |pairs|
      invariant forall k :: 0 <= k < i && pairs[k].body == player ==> pairs[k].mesh.position == player.position
      invariant forall k :: i <= k < |pairs| || (0 <= k < i && pairs[k].body != player) ==>
                  pairs[k].mesh.position == old(pairs[k].mesh.position)
      invariant forall k :: 0 <= k < |pairs| ==> pairs[k].mesh.quaternion == old(pairs[k].mesh.quaternion)
    {
      if pairs[i].body == player {
        pairs[i].mesh.position := player.position;
      }
    }
  }
}
