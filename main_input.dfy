/**
 * main.js's own keyboard map: its keydown and keyup listeners, which also
 * write the logical entry for a letter, arrow or space key besides the event's
 * code, and `checkMovementKeys`, the action record read once per frame.
 */
module MainInput {
  import opened Optional
  import opened Input

  /**
   * The extra entry a listener writes for an event's `key` value: lower- and
   * upper-case letters map to their `Key…` code, arrows to themselves, and the
   * space character or "Space" to "Space". Every other key writes none.
   */
  function Alias(key: string): (a: Option<string>)
    ensures a.Some? ==> a.value in {"KeyW", "KeyS", "KeyA", "KeyD", "ArrowUp", "ArrowDown", "ArrowLeft", "ArrowRight", "Space"}
  {
    if key == "w" || key == "W" then Some("KeyW")
    else if key == "s" || key == "S" then Some("KeyS")
    else if key == "a" || key == "A" then Some("KeyA")
    else if key == "d" || key == "D" then Some("KeyD")
    else if key == "ArrowUp" then Some("ArrowUp")
    else if key == "ArrowDown" then Some("ArrowDown")
    else if key == "ArrowLeft" then Some("ArrowLeft")
    else if key == "ArrowRight" then Some("ArrowRight")
    else if key == " " || key == "Space" then Some("Space")
    else None
  }

  /** The map after one key event: `value` under the code and under the key's alias, if any. */
  function AfterKeyEvent(keys: map<string, bool>, code: string, key: string, value: bool): (r: map<string, bool>)
    ensures code in r && r[code] == value
    ensures Alias(key).Some? ==> Alias(key).value in r && r[Alias(key).value] == value
    ensures forall c :: c != code && Some(c) != Alias(key) ==> (c in r <==> c in keys) && (c in r ==> r[c] == keys[c])
  {
    var written := keys[code := value];
    match Alias(key)
    case Some(c) => written[c := value]
    case None => written
  }

  /** The keydown listener of main.js, statement by statement. */
  method OnKeyDown(keyboard: Keyboard, code: string, key: string)
    modifies keyboard
    ensures keyboard.keys == AfterKeyEvent(old(keyboard.keys), code, key, true)
  {
    keyboard.keys := keyboard.keys[code := true];
    if key == "w" || key == "W" { keyboard.keys := keyboard.keys["KeyW" := true]; }
    if key == "s" || key == "S" { keyboard.keys := keyboard.keys["KeyS" := true]; }
    if key == "a" || key == "A" { keyboard.keys := keyboard.keys["KeyA" := true]; }
    if key == "d" || key == "D" { keyboard.keys := keyboard.keys["KeyD" := true]; }
    if key == "ArrowUp" { keyboard.keys := keyboard.keys["ArrowUp" := true]; }
    if key == "ArrowDown" { keyboard.keys := keyboard.keys["ArrowDown" := true]; }
    if key == "ArrowLeft" { keyboard.keys := keyboard.keys["ArrowLeft" := true]; }
    if key == "ArrowRight" { keyboard.keys := keyboard.keys["ArrowRight" := true]; }
    if key == " " || key == "Space" { keyboard.keys := keyboard.keys["Space" := true]; }
  }

  /** The keyup listener of main.js, statement by statement. */
  method OnKeyUp(keyboard: Keyboard, code: string, key: string)
    modifies keyboard
    ensures keyboard.keys == AfterKeyEvent(old(keyboard.keys), code, key, false)
  {
    keyboard.keys := keyboard.keys[code := false];
    if key == "w" || key == "W" { keyboard.keys := keyboard.keys["KeyW" := false]; }
    if key == "s" || key == "S" { keyboard.keys := keyboard.keys["KeyS" := false]; }
    if key == "a" || key == "A" { keyboard.keys := keyboard.keys["KeyA" := false]; }
    if key == "d" || key == "D" { keyboard.keys := keyboard.keys["KeyD" := false]; }
    if key == "ArrowUp" { keyboard.keys := keyboard.keys["ArrowUp" := false]; }
    if key == "ArrowDown" { keyboard.keys := keyboard.keys["ArrowDown" := false]; }
    if key == "ArrowLeft" { keyboard.keys := keyboard.keys["ArrowLeft" := false]; }
    if key == "ArrowRight" { keyboard.keys := keyboard.keys["ArrowRight" := false]; }
    if key == " " || key == "Space" { keyboard.keys := keyboard.keys["Space" := false]; }
  }

  /** The action record `checkMovementKeys` returns. */
  datatype MovementKeys = MovementKeys(forward: bool, backward: bool, left: bool, right: bool, jump: bool)

  /** No direction action is set (jump may be). */
  predicate NoDirection(m: MovementKeys) {
    !m.forward && !m.backward && !m.left && !m.right
  }

  /**
   * checkMovementKeys: each direction holds exactly when src/input.js would
   * see its key held, or a stray lower- or upper-case letter entry is set;
   * jump holds when either spelling of the space entry is set.
   */
  function CheckMovementKeys(keys: map<string, bool>): (m: MovementKeys)
    ensures m.forward <==> ForwardHeld(keys) || Pressed(keys, "w") || Pressed(keys, "W")
    ensures m.backward <==> BackHeld(keys) || Pressed(keys, "s") || Pressed(keys, "S")
    ensures m.left <==> LeftHeld(keys) || Pressed(keys, "a") || Pressed(keys, "A")
    ensures m.right <==> RightHeld(keys) || Pressed(keys, "d") || Pressed(keys, "D")
    ensures m.jump <==> Pressed(keys, "Space") || Pressed(keys, " ")
  {
    MovementKeys(
      forward := Pressed(keys, "KeyW") || Pressed(keys, "w") || Pressed(keys, "W") || Pressed(keys, "ArrowUp"),
      backward := Pressed(keys, "KeyS") || Pressed(keys, "s") || Pressed(keys, "S") || Pressed(keys, "ArrowDown"),
      left := Pressed(keys, "KeyA") || Pressed(keys, "a") || Pressed(keys, "A") || Pressed(keys, "ArrowLeft"),
      right := Pressed(keys, "KeyD") || Pressed(keys, "d") || Pressed(keys, "D") || Pressed(keys, "ArrowRight"),
      jump := Pressed(keys, "Space") || Pressed(keys, " "))
  }

  /** A keydown for a movement, arrow or space key turns its action on, whatever code the browser reports. */
  lemma KeyDownSetsAction(keys: map<string, bool>, code: string, key: string)
    ensures var after := CheckMovementKeys(AfterKeyEvent(keys, code, key, true));
            (key in {"w", "W", "ArrowUp"} ==> after.forward) &&
            (key in {"s", "S", "ArrowDown"} ==> after.backward) &&
            (key in {"a", "A", "ArrowLeft"} ==> after.left) &&
            (key in {"d", "D", "ArrowRight"} ==> after.right) &&
            (key in {" ", "Space"} ==> after.jump)
  {
    var after := AfterKeyEvent(keys, code, key, true);
    if key in {"w", "W"} {
      assert Pressed(after, "KeyW");
    } else if key == "ArrowUp" {
      assert Pressed(after, "ArrowUp");
    } else if key in {"s", "S"} {
      assert Pressed(after, "KeyS");
    } else if key == "ArrowDown" {
      assert Pressed(after, "ArrowDown");
    } else if key in {"a", "A"} {
      assert Pressed(after, "KeyA");
    } else if key == "ArrowLeft" {
      assert Pressed(after, "ArrowLeft");
    } else if key in {"d", "D"} {
      assert Pressed(after, "KeyD");
    } else if key == "ArrowRight" {
      assert Pressed(after, "ArrowRight");
    } else if key in {" ", "Space"} {
      assert Pressed(after, "Space");
    }
  }

  /** A keydown writes only `true`, so every entry held before is held after. */
  lemma KeyDownKeepsPressed(keys: map<string, bool>, code: string, key: string, c: string)
    requires Pressed(keys, c)
    ensures Pressed(AfterKeyEvent(keys, code, key, true), c)
  {
  }

  /** A keydown never turns an action off. */
  lemma KeyDownKeepsActions(keys: map<string, bool>, code: string, key: string)
    ensures var before := CheckMovementKeys(keys);
            var after := CheckMovementKeys(AfterKeyEvent(keys, code, key, true));
            (before.forward ==> after.forward) && (before.backward ==> after.backward) &&
            (before.left ==> after.left) && (before.right ==> after.right) && (before.jump ==> after.jump)
  {
    forall c | Pressed(keys, c)
      ensures Pressed(AfterKeyEvent(keys, code, key, true), c)
    {
      KeyDownKeepsPressed(keys, code, key, c);
    }
  }

  /**
   * Releasing the W key (code "KeyW", key "w") leaves forward held only through
   * an entry the release did not touch: the stray "w"/"W" entries or the up arrow.
   */
  lemma KeyUpClearsForward(keys: map<string, bool>)
    ensures CheckMovementKeys(AfterKeyEvent(keys, "KeyW", "w", false)).forward
        <==> Pressed(keys, "w") || Pressed(keys, "W") || Pressed(keys, "ArrowUp")
  {
    var after := AfterKeyEvent(keys, "KeyW", "w", false);
    assert !Pressed(after, "KeyW");
    assert Pressed(after, "w") == Pressed(keys, "w");
    assert Pressed(after, "W") == Pressed(keys, "W");
    assert Pressed(after, "ArrowUp") == Pressed(keys, "ArrowUp");
  }

  /** A press followed by the matching release leaves the map as the release alone would. */
  lemma PressThenRelease(keys: map<string, bool>, code: string, key: string)
    ensures AfterKeyEvent(AfterKeyEvent(keys, code, key, true), code, key, false) == AfterKeyEvent(keys, code, key, false)
  {
  }
}
