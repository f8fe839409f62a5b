/**
 * src/input.js: the shared keyboard map written by the key listeners, the
 * movement direction derived from it, and the exact-true key query.
 *
 * The map goes from a physical key code (such as "KeyW") to the last value a
 * listener stored for it. A code no listener has written is absent, which the
 * script reads as `undefined`, a falsy value.
 */
module Input {

  /** How the script reads `keyboard[code]` in a condition: absent or false both mean "not held". */
  predicate Pressed(keys: map<string, bool>, code: string) {
    code in keys && keys[code]
  }

  predicate ForwardHeld(keys: map<string, bool>) {
    Pressed(keys, "KeyW") || Pressed(keys, "ArrowUp")
  }

  predicate BackHeld(keys: map<string, bool>) {
    Pressed(keys, "KeyS") || Pressed(keys, "ArrowDown")
  }

  predicate LeftHeld(keys: map<string, bool>) {
    Pressed(keys, "KeyA") || Pressed(keys, "ArrowLeft")
  }

  predicate RightHeld(keys: map<string, bool>) {
    Pressed(keys, "KeyD") || Pressed(keys, "ArrowRight")
  }

  /** No movement key (WASD or an arrow) is held. */
  predicate NoMovementKey(keys: map<string, bool>) {
    !ForwardHeld(keys) && !BackHeld(keys) && !LeftHeld(keys) && !RightHeld(keys)
  }

  /**
   * The unnormalised value of one axis of the movement direction: the key
   * tested second (`positive`) wins when both are held.
   */
  function AxisValue(negative: bool, positive: bool): (v: real)
    ensures v == 1.0 <==> positive
    ensures v == -1.0 <==> negative && !positive
    ensures v == 0.0 <==> !negative && !positive
  {
    if positive then 1.0 else if negative then -1.0 else 0.0
  }

  /** The keyboard map shared by the key listeners and its readers. */
  class Keyboard {
    var keys: map<string, bool>

    constructor ()
      ensures keys == map[]
    {
      keys := map[];
    }

    /** True only when the stored value is exactly `true`; a code never seen reports false. */
    function IsKeyPressed(code: string): (b: bool)
      reads this
      ensures b ==> code in keys
      ensures code !in keys ==> !b
      ensures code in keys ==> (b <==> keys[code])
    {
      code in keys && keys[code] == true
    }

    /** The keydown listener: stores `true` under the event's code and nothing else. */
    method OnKeyDown(code: string)
      modifies this
      ensures keys == old(keys)[code := true]
      ensures IsKeyPressed(code)
      ensures forall c :: c != code ==> (c in keys <==> c in old(keys)) && (c in keys ==> keys[c] == old(keys)[c])
    {
      keys := keys[code := true];
    }

    /** The keyup listener: stores `false` under the event's code and nothing else. */
    method OnKeyUp(code: string)
      modifies this
      ensures keys == old(keys)[code := false]
      ensures !IsKeyPressed(code) && code in keys
      ensures forall c :: c != code ==> (c in keys <==> c in old(keys)) && (c in keys ==> keys[c] == old(keys)[c])
    {
      keys := keys[code := false];
    }
  }

  /**
   * getMovementDirection: the later of two opposing keys in the source's test
   * order wins (S over W, D over A); a diagonal is divided by its length.
   * `root2` is the value `Math.sqrt(x * x + z * z)` yields on a diagonal, where
   * both components are 1 or -1 and the argument is 2.
   */
  method MovementDirection(keys: map<string, bool>, root2: real) returns (x: real, z: real)
    requires root2 > 0.0 && root2 * root2 == 2.0
    ensures NoMovementKey(keys) ==> x == 0.0 && z == 0.0
    ensures z > 0.0 <==> BackHeld(keys)
    ensures z < 0.0 <==> ForwardHeld(keys) && !BackHeld(keys)
    ensures x > 0.0 <==> RightHeld(keys)
    ensures x < 0.0 <==> LeftHeld(keys) && !RightHeld(keys)
    ensures x == 0.0 || z == 0.0 ==>
              x == AxisValue(LeftHeld(keys), RightHeld(keys)) && z == AxisValue(ForwardHeld(keys), BackHeld(keys))
    ensures x != 0.0 && z != 0.0 ==> x * x + z * z == 1.0 && (x == z || x == -z)
  {
    x, z := 0.0, 0.0;
    if ForwardHeld(keys) {
      z := -1.0;
    }
    if BackHeld(keys) {
      z := 1.0;
    }
    if LeftHeld(keys) {
      x := -1.0;
    }
    if RightHeld(keys) {
      x := 1.0;
    }
    if x != 0.0 && z != 0.0 {
      UnitDiagonal(root2);
      x := x / root2;
      z := z / root2;
    }
  }

  /** A component of 1 or -1 divided by the square root of 2 squares to one half. */
  lemma UnitDiagonal(root2: real)
    requires root2 > 0.0 && root2 * root2 == 2.0
    ensures (1.0 / root2) * (1.0 / root2) == 0.5
    ensures (-1.0 / root2) * (-1.0 / root2) == 0.5
    ensures 1.0 / root2 > 0.0 && -1.0 / root2 < 0.0
  {
  }
}
