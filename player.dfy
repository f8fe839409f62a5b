/**
 * src/player.js: the velocity-based movement variant. Each call damps the
 * horizontal velocity, adds or subtracts the camera's front and side vectors
 * scaled by speed and time step for each held key, and sets the vertical
 * velocity on a grounded jump. The camera basis vectors come in as parameters.
 */
module Player {
  import opened Geometry
  import opened Input

  /** The factor applied to the horizontal velocity on every call. */
  const DAMPING: real := 0.95

  /**
   * What a pair of opposing keys adds to one velocity component: `amount` for
   * the key that adds, minus `amount` for the key that subtracts.
   */
  function Contribution(adds: bool, subtracts: bool, amount: real): (c: real)
    ensures adds && subtracts ==> c == 0.0
    ensures !adds && !subtracts ==> c == 0.0
    ensures adds && !subtracts ==> c == amount
    ensures subtracts && !adds ==> c == -amount
  {
    (if adds then amount else 0.0) - (if subtracts then amount else 0.0)
  }

  /**
   * The velocity after the key rules, as one closed formula: damping, then the
   * net front and side contributions of the per-key amounts, and the jump
   * velocity for y when a grounded jump is requested.
   */
  function SteeredVelocity(v: Vec3, forward: bool, back: bool, left: bool, right: bool, jump: bool,
                           fx: real, fz: real, sx: real, sz: real, jumpVelocity: real): Vec3
  {
    Vec3(DAMPING * v.x + Contribution(forward, back, fx) + Contribution(left, right, sx),
         if jump then jumpVelocity else v.y,
         DAMPING * v.z + Contribution(forward, back, fz) + Contribution(left, right, sz))
  }

  /**
   * The key rules read off the keyboard map: forward is W or up, back S or
   * down, left A or left, right D or right, and the jump a Space press while
   * grounded. `fx`, `fz` and `sx`, `sz` are the amounts one forward or left
   * key adds (the camera vectors scaled by speed and time step).
   */
  function KeyVelocity(v: Vec3, keys: map<string, bool>, grounded: bool,
                       fx: real, fz: real, sx: real, sz: real, jumpVelocity: real): Vec3
  {
    SteeredVelocity(v, ForwardHeld(keys), BackHeld(keys), LeftHeld(keys), RightHeld(keys),
                    Pressed(keys, "Space") && grounded, fx, fz, sx, sz, jumpVelocity)
  }

  /**
   * The key rules of updatePlayerMovement in the source's order, on the
   * velocity components: damp x and z, then add or subtract the per-key
   * amounts for each held key, then the grounded jump.
   */
  method Steer(v: Vec3, forward: bool, back: bool, left: bool, right: bool, jump: bool,
               fx: real, fz: real, sx: real, sz: real, jumpVelocity: real) returns (r: Vec3)
    ensures r == SteeredVelocity(v, forward, back, left, right, jump, fx, fz, sx, sz, jumpVelocity)
  {
    var vx, vy, vz := v.x, v.y, v.z;
    vx := vx * DAMPING;
    vz := vz * DAMPING;
    if forward {
      vx := vx + fx;
      vz := vz + fz;
    }
    if back {
      vx := vx - fx;
      vz := vz - fz;
    }
    if left {
      vx := vx + sx;
      vz := vz + sz;
    }
    if right {
      vx := vx - sx;
      vz := vz - sz;
    }
    if jump {
      vy := jumpVelocity;
    }
    r := Vec3(vx, vy, vz);
  }

  /**
   * updatePlayerMovement: the per-key amounts are the camera's front and side
   * vectors scaled by speed and time step, the jump velocity the jump force
   * times the time step; the key rules then set the body's velocity, and the
   * position is left alone.
   */
  method UpdatePlayerMovement(body: RigidBody, front: Vec3, side: Vec3, keys: map<string, bool>, isGrounded: bool,
                              moveSpeed: real, jumpForce: real, timeStep: real)
    modifies body
    ensures body.velocity == KeyVelocity(old(body.velocity), keys, isGrounded,
                                         front.x * moveSpeed * timeStep, front.z * moveSpeed * timeStep,
                                         side.x * moveSpeed * timeStep, side.z * moveSpeed * timeStep, jumpForce * timeStep)
    ensures body.position == old(body.position) && body.quaternion == old(body.quaternion)
  {
    body.velocity := Steer(body.velocity, ForwardHeld(keys), BackHeld(keys), LeftHeld(keys), RightHeld(keys),
                           Pressed(keys, "Space") && isGrounded,
                           front.x * moveSpeed * timeStep, front.z * moveSpeed * timeStep,
                           side.x * moveSpeed * timeStep, side.z * moveSpeed * timeStep, jumpForce * timeStep);
  }

  /**
   * With no movement key held (whatever else the map records, released keys
   * included) the horizontal velocity is exactly damped, and y is untouched
   * unless a grounded jump is requested.
   */
  lemma NoKeysOnlyDamps(v: Vec3, keys: map<string, bool>, grounded: bool,
                        fx: real, fz: real, sx: real, sz: real, jumpVelocity: real)
    requires NoMovementKey(keys)
    ensures var r := KeyVelocity(v, keys, grounded, fx, fz, sx, sz, jumpVelocity);
            r.x == DAMPING * v.x && r.z == DAMPING * v.z &&
            (!(grounded && Pressed(keys, "Space")) ==> r.y == v.y)
  {
  }

  /** The keys that steer forward and back. */
  const FORWARD_BACK_KEYS: set<string> := {"KeyW", "ArrowUp", "KeyS", "ArrowDown"}
  /** The keys that steer left and right. */
  const LEFT_RIGHT_KEYS: set<string> := {"KeyA", "ArrowLeft", "KeyD", "ArrowRight"}

  /** Holding forward and back together is the same as holding neither: only the damping remains on that axis. */
  lemma ForwardBackCancel(v: Vec3, keys: map<string, bool>, grounded: bool,
                          fx: real, fz: real, sx: real, sz: real, jumpVelocity: real)
    requires ForwardHeld(keys) && BackHeld(keys)
    ensures KeyVelocity(v, keys, grounded, fx, fz, sx, sz, jumpVelocity)
         == KeyVelocity(v, keys - FORWARD_BACK_KEYS, grounded, fx, fz, sx, sz, jumpVelocity)
  {
    var rest := keys - FORWARD_BACK_KEYS;
    assert !ForwardHeld(rest) && !BackHeld(rest);
    assert LeftHeld(rest) == LeftHeld(keys) && RightHeld(rest) == RightHeld(keys);
    assert Pressed(rest, "Space") == Pressed(keys, "Space");
  }

  /** Holding left and right together is the same as holding neither. */
  lemma LeftRightCancel(v: Vec3, keys: map<string, bool>, grounded: bool,
                        fx: real, fz: real, sx: real, sz: real, jumpVelocity: real)
    requires LeftHeld(keys) && RightHeld(keys)
    ensures KeyVelocity(v, keys, grounded, fx, fz, sx, sz, jumpVelocity)
         == KeyVelocity(v, keys - LEFT_RIGHT_KEYS, grounded, fx, fz, sx, sz, jumpVelocity)
  {
    var rest := keys - LEFT_RIGHT_KEYS;
    assert !LeftHeld(rest) && !RightHeld(rest);
    assert ForwardHeld(rest) == ForwardHeld(keys) && BackHeld(rest) == BackHeld(keys);
    assert Pressed(rest, "Space") == Pressed(keys, "Space");
  }

  /**
   * A front key held alone moves the horizontal velocity away from the damped
   * value by exactly its amounts: forward adds them and back subtracts them,
   * so the two give mirror-image results.
   */
  lemma SingleKeyContribution(v: Vec3, keys: map<string, bool>, grounded: bool,
                              fx: real, fz: real, sx: real, sz: real, jumpVelocity: real)
    requires ForwardHeld(keys) != BackHeld(keys) && !LeftHeld(keys) && !RightHeld(keys)
    ensures var r := KeyVelocity(v, keys, grounded, fx, fz, sx, sz, jumpVelocity);
            var sign := if ForwardHeld(keys) then 1.0 else -1.0;
            r.x - DAMPING * v.x == sign * fx && r.z - DAMPING * v.z == sign * fz
  {
  }

  /** The side-vector counterpart of `SingleKeyContribution`: left adds, right subtracts. */
  lemma SingleSideKeyContribution(v: Vec3, keys: map<string, bool>, grounded: bool,
                                  fx: real, fz: real, sx: real, sz: real, jumpVelocity: real)
    requires LeftHeld(keys) != RightHeld(keys) && !ForwardHeld(keys) && !BackHeld(keys)
    ensures var r := KeyVelocity(v, keys, grounded, fx, fz, sx, sz, jumpVelocity);
            var sign := if LeftHeld(keys) then 1.0 else -1.0;
            r.x - DAMPING * v.x == sign * sx && r.z - DAMPING * v.z == sign * sz
  {
  }

  /** The vertical velocity changes only on a grounded jump, and then to the jump velocity. */
  lemma JumpOnlyWhenGrounded(v: Vec3, keys: map<string, bool>, grounded: bool,
                             fx: real, fz: real, sx: real, sz: real, jumpVelocity: real)
    ensures var r := KeyVelocity(v, keys, grounded, fx, fz, sx, sz, jumpVelocity);
            (r.y != v.y ==> grounded && Pressed(keys, "Space") && r.y == jumpVelocity) &&
            (!grounded || !Pressed(keys, "Space") ==> r.y == v.y)
  {
  }
}
