/**
 * The collision filter groups of main.js and the group/mask pairs that the
 * game gives each kind of body. A body belongs to one group (a single bit) and
 * lists in its mask the groups it may touch.
 */
module CollisionGroups {

  type Bits = bv32

  const DEFAULT: Bits := 1
  const PLAYER: Bits := 2
  const STATIC: Bits := 4
  const OBJECTS: Bits := 8
  const TASK: Bits := 16
  const VENTS: Bits := 32
  const DOOR: Bits := 64

  /** The player body's mask (main.js createPlayerPhysics). */
  const PLAYER_MASK: Bits := DEFAULT | STATIC | OBJECTS | DOOR
  /** The mask of walls and of the floor. */
  const STATIC_MASK: Bits := DEFAULT | PLAYER | OBJECTS
  /** The mask of boxes and tables. */
  const OBJECTS_MASK: Bits := DEFAULT | PLAYER
  /** The mask of door bodies. */
  const DOOR_MASK: Bits := DEFAULT | PLAYER | OBJECTS
  /** The mask of the downward grounding ray. */
  const GROUND_PROBE_MASK: Bits := STATIC | OBJECTS

  /** A group is one bit. */
  predicate SingleBit(g: Bits) {
    g != 0 && g & (g - 1) == 0
  }

  /**
   * The physics library's rule: two bodies interact when each one's group is
   * in the other's mask.
   */
  predicate Collides(groupA: Bits, maskA: Bits, groupB: Bits, maskB: Bits) {
    groupA & maskB != 0 && groupB & maskA != 0
  }

  /** The library's rule for a ray with a filter mask (the ray's own group is all bits). */
  predicate RayTests(rayMask: Bits, group: Bits, mask: Bits) {
    group & rayMask != 0 && mask != 0
  }

  /** The seven groups are distinct single bits. */
  lemma GroupsAreDistinctBits()
    ensures SingleBit(DEFAULT) && SingleBit(PLAYER) && SingleBit(STATIC) && SingleBit(OBJECTS)
    ensures SingleBit(TASK) && SingleBit(VENTS) && SingleBit(DOOR)
    ensures var gs := [DEFAULT, PLAYER, STATIC, OBJECTS, TASK, VENTS, DOOR];
            forall i, j :: 0 <= i < j < |gs| ==> gs[i] & gs[j] == 0
  {
  }

  /**
   * The player touches the static geometry, the objects and the doors, in both
   * directions of the rule, and does not touch the task or vent groups.
   */
  lemma PlayerContacts()
    ensures Collides(PLAYER, PLAYER_MASK, STATIC, STATIC_MASK)
    ensures Collides(PLAYER, PLAYER_MASK, OBJECTS, OBJECTS_MASK)
    ensures Collides(PLAYER, PLAYER_MASK, DOOR, DOOR_MASK)
    ensures PLAYER_MASK & TASK == 0 && PLAYER_MASK & VENTS == 0
  {
  }

  /**
   * Walls list objects in their mask but objects do not list walls, so the two
   * never interact; doors and walls do not interact either.
   */
  lemma WorldContacts()
    ensures STATIC_MASK & OBJECTS != 0 && OBJECTS_MASK & STATIC == 0
    ensures !Collides(STATIC, STATIC_MASK, OBJECTS, OBJECTS_MASK)
    ensures !Collides(DOOR, DOOR_MASK, STATIC, STATIC_MASK)
  {
  }

  /** The grounding ray sees walls, floor and objects, and never a door or the player. */
  lemma GroundProbeTargets()
    ensures RayTests(GROUND_PROBE_MASK, STATIC, STATIC_MASK)
    ensures RayTests(GROUND_PROBE_MASK, OBJECTS, OBJECTS_MASK)
    ensures !RayTests(GROUND_PROBE_MASK, DOOR, DOOR_MASK)
    ensures !RayTests(GROUND_PROBE_MASK, PLAYER, PLAYER_MASK)
  {
  }
}
