/**
 * The doors of main.js: the toggle with its open/close animation, and the
 * nearest-door selection used by the interact key and the proximity indicator.
 *
 * The source animates a door by a closure that re-schedules itself on every
 * display frame until its progress reaches 1. Here the closure's captured state
 * is the `pending` field of the door and one run of the closure is `Step(now)`,
 * with the clock reading passed in.
 */
module Doors {
  import opened Optional
  import opened Geometry

  /** How far an open door has slid from its original position. */
  const OPEN_DISTANCE: real := 2.0
  /** Length of an open or close animation, in milliseconds. */
  const DURATION: real := 500.0
  /** The interaction radius is 3; distances are compared squared, which keeps every comparison's outcome. */
  const RANGE_SQ: real := 9.0

  /** Where an opening door is headed: 2 units along z for a horizontal door, along x otherwise. */
  function OpenTarget(original: Vec3, isHorizontal: bool): (t: Vec3)
    ensures t.y == original.y
    ensures isHorizontal ==> t.x == original.x && t.z == original.z + OPEN_DISTANCE
    ensures !isHorizontal ==> t.z == original.z && t.x == original.x + OPEN_DISTANCE
    ensures t != original
  {
    if isHorizontal then original.(z := original.z + OPEN_DISTANCE)
    else original.(x := original.x + OPEN_DISTANCE)
  }

  /** The animation progress `min(elapsed / duration, 1)`. */
  function Progress(elapsed: real): (p: real)
    ensures p <= 1.0
    ensures elapsed >= 0.0 ==> p >= 0.0
    ensures p == 1.0 <==> elapsed >= DURATION
    ensures elapsed == 0.0 ==> p == 0.0
  {
    if elapsed / DURATION < 1.0 then elapsed / DURATION else 1.0
  }

  /** Progress never goes back as time passes. */
  lemma ProgressMonotonic(e1: real, e2: real)
    requires e1 <= e2
    ensures Progress(e1) <= Progress(e2)
  {
  }

  /** The state one animation closure captures when the toggle starts it. */
  datatype Animation = Animation(opening: bool, startTime: real, startPosition: Vec3, frameStartPosition: Vec3, target: Vec3)

  /** A door: its flags, its original position, and the positions of its mesh, its frame and its physics body. */
  class Door {
    const isHorizontal: bool
    const originalPosition: Vec3
    var isOpen: bool
    var animating: bool
    var meshPosition: Vec3
    var framePosition: Vec3
    var bodyPosition: Vec3
    /** The animation closure scheduled for the next frame, if any. */
    var pending: Option<Animation>

    /** Where the door rests when closed or open. */
    function RestPosition(open: bool): Vec3
    {
      if open then OpenTarget(originalPosition, isHorizontal) else originalPosition
    }

    /**
     * The door's invariant: the body and frame follow the mesh; an animation is
     * pending exactly while `animating`; it runs from the current rest position to
     * the other one; a door at rest sits at the rest position of its state.
     */
    ghost predicate Valid()
      reads this
    {
      && bodyPosition == meshPosition
      && framePosition == meshPosition
      && (animating <==> pending.Some?)
      && (!animating ==> meshPosition == RestPosition(isOpen))
      && (pending.Some? ==>
            && pending.value.opening == !isOpen
            && pending.value.startPosition == RestPosition(isOpen)
            && pending.value.frameStartPosition == pending.value.startPosition
            && pending.value.target == RestPosition(!isOpen))
    }

    /** createDoor: a closed, idle door whose mesh, frame and body stand at (x, y + height/2, z). */
    constructor (x: real, y: real, z: real, height: real, isHorizontal: bool)
      ensures Valid()
      ensures this.isHorizontal == isHorizontal && originalPosition == Vec3(x, y + height / 2.0, z)
      ensures !isOpen && !animating && meshPosition == originalPosition
    {
      this.isHorizontal := isHorizontal;
      originalPosition := Vec3(x, y + height / 2.0, z);
      isOpen := false;
      animating := false;
      meshPosition := Vec3(x, y + height / 2.0, z);
      framePosition := Vec3(x, y + height / 2.0, z);
      bodyPosition := Vec3(x, y + height / 2.0, z);
      pending := None;
    }

    /**
     * One run of animateDoorOpen / animateDoorClose at clock reading `now`:
     * interpolate mesh and frame, copy the mesh into the body, and either stay
     * scheduled (progress below 1) or finish, flipping `isOpen`.
     */
    method Step(now: real)
      requires Valid() && animating
      modifies this
      ensures Valid()
      ensures var a := old(pending).value;
              var p := Progress(now - a.startTime);
              && meshPosition == Lerp(a.startPosition, a.target, p)
              && (p < 1.0 ==> animating && isOpen == old(isOpen) && pending == old(pending))
              && (p == 1.0 ==> !animating && isOpen == a.opening && isOpen != old(isOpen) && meshPosition == a.target)
    {
      var a := pending.value;
      var progress := Progress(now - a.startTime);
      meshPosition := Lerp(a.startPosition, a.target, progress);
      framePosition := Lerp(a.frameStartPosition, a.target, progress);
      bodyPosition := meshPosition;
      if progress < 1.0 {
        // the closure schedules itself again: `pending` stays
      } else {
        isOpen := a.opening;
        animating := false;
        pending := None;
      }
    }
  }

  /**
   * What toggleDoor does to a door: nothing while it is animating; otherwise an
   * animation starts from the current rest position towards the other one, and
   * its first frame runs at clock reading `firstFrameTime`, which either leaves
   * it pending or, at progress 1, completes the flip of `isOpen`.
   */
  twostate predicate Toggled(door: Door, startTime: real, firstFrameTime: real)
    reads door
  {
    && (old(door.animating) ==> unchanged(door))
    && (!old(door.animating) ==>
          var a := Animation(!old(door.isOpen), startTime, old(door.meshPosition), old(door.framePosition),
                             door.RestPosition(!old(door.isOpen)));
          var p := Progress(firstFrameTime - startTime);
          && a.startPosition == door.RestPosition(old(door.isOpen))
          && door.meshPosition == Lerp(a.startPosition, a.target, p)
          && (p < 1.0 ==> door.animating && door.isOpen == old(door.isOpen) && door.pending == Some(a))
          && (p == 1.0 ==> !door.animating && door.isOpen == !old(door.isOpen) && door.meshPosition == a.target))
  }

  /**
   * toggleDoor: no effect on a null door or on one already animating; otherwise
   * mark it animating, capture the animation towards the other rest position
   * (clock reading `startTime`) and run its first frame at once (clock reading
   * `firstFrameTime`, the second reading the source takes).
   */
  method ToggleDoor(door: Door?, startTime: real, firstFrameTime: real)
    requires door != null ==> door.Valid()
    modifies door
    ensures door != null ==> door.Valid() && Toggled(door, startTime, firstFrameTime)
  {
    if door == null {
      return;
    }
    if door.animating {
      return;
    }
    door.animating := true;
    var target := if !door.isOpen then OpenTarget(door.originalPosition, door.isHorizontal) else door.originalPosition;
    door.pending := Some(Animation(!door.isOpen, startTime, door.meshPosition, door.framePosition, target));
    door.Step(firstFrameTime);
  }

  /**
   * A completed open followed by a completed close puts the door back where it
   * started: mesh and body at the original position, closed and idle. The last
   * frame of each animation comes at least `DURATION` after its start.
   */
  method OpenThenClose(door: Door, openStart: real, openFirst: real, openLast: real,
                       closeStart: real, closeFirst: real, closeLast: real)
    requires door.Valid() && !door.isOpen && !door.animating
    requires openLast >= openStart + DURATION && closeLast >= closeStart + DURATION
    modifies door
    ensures door.Valid()
    ensures !door.isOpen && !door.animating
    ensures door.meshPosition == door.originalPosition && door.bodyPosition == door.originalPosition
  {
    ToggleDoor(door, openStart, openFirst);
    if door.animating {
      door.Step(openLast);
    }
    assert door.isOpen && door.meshPosition == OpenTarget(door.originalPosition, door.isHorizontal);
    ToggleDoor(door, closeStart, closeFirst);
    if door.animating {
      door.Step(closeLast);
    }
  }

  /** Within interaction range of the player: planar distance below 3. */
  predicate InRange(player: Vec3, door: Vec3) {
    PlanarDistSq(player, door) < RANGE_SQ
  }

  /**
   * The selection the source's loop makes, stated on its own: the chosen door is
   * in range, no door in range is strictly closer, and every earlier door is out
   * of range or strictly farther; nothing is chosen only when no door is in range.
   */
  predicate Selects(positions: seq<Vec3>, player: Vec3, choice: Option<nat>) {
    match choice
    case None => forall j :: 0 <= j < |positions| ==> !InRange(player, positions[j])
    case Some(k) =>
      && k < |positions|
      && InRange(player, positions[k])
      && (forall j :: 0 <= j < |positions| && InRange(player, positions[j]) ==>
            PlanarDistSq(player, positions[k]) <= PlanarDistSq(player, positions[j]))
      && (forall j :: 0 <= j < k ==>
            !InRange(player, positions[j]) || PlanarDistSq(player, positions[k]) < PlanarDistSq(player, positions[j]))
  }

  /** At most one choice meets `Selects`: the rule leaves no tie unresolved. */
  lemma SelectionIsUnique(positions: seq<Vec3>, player: Vec3, c1: Option<nat>, c2: Option<nat>)
    requires Selects(positions, player, c1) && Selects(positions, player, c2)
    ensures c1 == c2
  {
  }

  /**
   * The nearest-door loop: a linear scan keeping the best door so far, replacing
   * it only by a door in range and strictly closer. `None` for the best distance
   * plays the part of the source's initial `Infinity`.
   */
  method NearestDoor(positions: seq<Vec3>, player: Vec3) returns (nearest: Option<nat>)
    ensures Selects(positions, player, nearest)
  {
    nearest := None;
    var minDistSq: Option<real> := None;
    for i := 0 to |positions|
      invariant minDistSq.Some? <==> nearest.Some?
      invariant nearest.Some? ==> nearest.value < i && minDistSq.value == PlanarDistSq(player, positions[nearest.value])
      invariant Selects(positions[..i], player, nearest)
    {
      var d := PlanarDistSq(player, positions[i]);
      if d < RANGE_SQ && (minDistSq.None? || d < minDistSq.value) {
        minDistSq := Some(d);
        nearest := Some(i);
      }
    }
    assert positions[..|positions|] == positions;
  }

  /** The doors' body positions, in registry order. */
  function BodyPositions(doors: seq<Door>): (ps: seq<Vec3>)
    reads doors
    ensures |ps| == |doors|
    ensures forall i :: 0 <= i < |doors| ==> ps[i] == doors[i].bodyPosition
  {
    if doors == [] then [] else [doors[0].bodyPosition] + BodyPositions(doors[1..])
  }

  /** Every registered door keeps its invariant. */
  ghost predicate AllValid(doors: seq<Door>)
    reads doors
  {
    forall i :: 0 <= i < |doors| ==> doors[i].Valid()
  }

  /**
   * The interact-key listener: on "e" or "E", toggle the nearest door in range
   * and return its index; any other key, or no door in range, changes nothing.
   */
  method OnInteractKey(key: string, doors: seq<Door>, player: Vec3, startTime: real, firstFrameTime: real)
    returns (toggled: Option<nat>)
    requires AllValid(doors)
    modifies doors
    ensures AllValid(doors)
    ensures key != "e" && key != "E" ==> toggled == None
    ensures key == "e" || key == "E" ==> Selects(old(BodyPositions(doors)), player, toggled)
    ensures toggled == None ==> forall i :: 0 <= i < |doors| ==> unchanged(doors[i])
    ensures toggled.Some? ==> forall i :: 0 <= i < |doors| && doors[i] != doors[toggled.value] ==> unchanged(doors[i])
    ensures toggled.Some? ==> Toggled(doors[toggled.value], startTime, firstFrameTime)
  {
    toggled := None;
    if key == "e" || key == "E" {
      toggled := NearestDoor(BodyPositions(doors), player);
      if toggled.Some? {
        ToggleDoor(doors[toggled.value], startTime, firstFrameTime);
      }
    }
  }

  /** checkDoorProximity: the indicator shows exactly when some door is within range. */
  method CheckDoorProximity(doors: seq<Door>, player: Vec3) returns (indicatorVisible: bool)
    ensures indicatorVisible <==> exists j :: 0 <= j < |doors| && InRange(player, doors[j].bodyPosition)
  {
    var nearest := NearestDoor(BodyPositions(doors), player);
    indicatorVisible := nearest.Some?;
  }
}
