/**
 * Room walls around doorways (main.js createRoom): one wall line is split into
 * segments at the doorways that lie on it, one door is created per doorway,
 * and every segment becomes a wall box 0.2 thick.
 *
 * A wall line runs from (startX, startZ) to (endX, endZ). It counts as
 * horizontal when startZ == endZ (it runs along x); otherwise the code treats
 * it as running along z, and emits segments only when it is vertical
 * (startX == endX).
 */
module Walls {
  import opened Optional
  import opened Geometry

  /** The side a doorway is listed for; a name other than the four belongs to no wall. */
  datatype Side = North | East | South | West | Other

  /** A doorway as the room tables give it: the side it is on, its centre and its width. */
  datatype Doorway = Doorway(side: Side, x: real, z: real, width: real)

  /** A piece of wall between two points of the wall line. */
  datatype Segment = Segment(startX: real, startZ: real, endX: real, endZ: real)

  /** The arguments one call of createDoor receives. */
  datatype DoorSpec = DoorSpec(x: real, y: real, z: real, width: real, height: real, depth: real, isHorizontal: bool)

  /** The arguments one call of createWallWithMesh receives (its y is always 0). */
  datatype WallBox = WallBox(x: real, z: real, width: real, height: real, depth: real)

  /** The thickness of walls and of doors across the wall line. */
  const THICKNESS: real := 0.2

  /** The filter of createWallSegments: the doorway's centre is on the wall line, between its ends. */
  predicate IsOnWall(d: Doorway, startX: real, startZ: real, endX: real, endZ: real) {
    if startZ == endZ then d.z == startZ && startX <= d.x <= endX
    else d.x == startX && startZ <= d.z <= endZ
  }

  /** The doorways of `ds` lying on the wall, in their order. */
  function OnWall(ds: seq<Doorway>, startX: real, startZ: real, endX: real, endZ: real): (r: seq<Doorway>)
    ensures |r| <= |ds|
    ensures forall d :: d in r <==> d in ds && IsOnWall(d, startX, startZ, endX, endZ)
    ensures forall d {:trigger multiset(r)[d]} :: multiset(r)[d] == if IsOnWall(d, startX, startZ, endX, endZ) then multiset(ds)[d] else 0
  {
    if ds == [] then []
    else
      var rest := OnWall(ds[1..], startX, startZ, endX, endZ);
      assert ds == [ds[0]] + ds[1..];
      assert forall d :: d in ds <==> d == ds[0] || d in ds[1..];
      if IsOnWall(ds[0], startX, startZ, endX, endZ) then [ds[0]] + rest else rest
  }

  /** Filtering a concatenation filters each part and keeps them in order. */
  lemma {:induction false} OnWallAppend(a: seq<Doorway>, b: seq<Doorway>, startX: real, startZ: real, endX: real, endZ: real)
    ensures OnWall(a + b, startX, startZ, endX, endZ) == OnWall(a, startX, startZ, endX, endZ) + OnWall(b, startX, startZ, endX, endZ)
    decreases |a|
  {
    if a != [] {
      var ab := a + b;
      assert ab[0] == a[0] && ab[1..] == a[1..] + b;
      OnWallAppend(a[1..], b, startX, startZ, endX, endZ);
      var head := if IsOnWall(a[0], startX, startZ, endX, endZ) then [a[0]] else [];
      var x, y := OnWall(a[1..], startX, startZ, endX, endZ), OnWall(b, startX, startZ, endX, endZ);
      assert OnWall(ab, startX, startZ, endX, endZ) == head + (x + y);
      assert OnWall(a, startX, startZ, endX, endZ) == head + x;
      assert head + (x + y) == (head + x) + y;
    } else {
      assert a + b == b;
    }
  }

  /** The doorways of `ds` listed for one side of the room, in their order. */
  function OnSide(ds: seq<Doorway>, side: Side): (r: seq<Doorway>)
    ensures |r| <= |ds|
    ensures forall d :: d in r <==> d in ds && d.side == side
    ensures forall d {:trigger multiset(r)[d]} :: multiset(r)[d] == if d.side == side then multiset(ds)[d] else 0
  {
    if ds == [] then []
    else
      var rest := OnSide(ds[1..], side);
      assert ds == [ds[0]] + ds[1..];
      assert forall d :: d in ds <==> d == ds[0] || d in ds[1..];
      if ds[0].side == side then [ds[0]] + rest else rest
  }

  /** Filtering a concatenation filters each part and keeps them in order. */
  lemma {:induction false} OnSideAppend(a: seq<Doorway>, b: seq<Doorway>, side: Side)
    ensures OnSide(a + b, side) == OnSide(a, side) + OnSide(b, side)
    decreases |a|
  {
    if a != [] {
      var ab := a + b;
      assert ab[0] == a[0] && ab[1..] == a[1..] + b;
      OnSideAppend(a[1..], b, side);
      var head := if a[0].side == side then [a[0]] else [];
      var x, y := OnSide(a[1..], side), OnSide(b, side);
      assert OnSide(ab, side) == head + (x + y);
      assert OnSide(a, side) == head + x;
      assert head + (x + y) == (head + x) + y;
    } else {
      assert a + b == b;
    }
  }

  /** The coordinate a doorway is sorted by: x on a horizontal wall, z otherwise. */
  function Key(d: Doorway, horizontal: bool): real {
    if horizontal then d.x else d.z
  }

  predicate SortedAlong(ds: seq<Doorway>, horizontal: bool) {
    forall i, j :: 0 <= i < j < |ds| ==> Key(ds[i], horizontal) <= Key(ds[j], horizontal)
  }

  /** `d` placed before the first doorway whose key is not smaller: the same doorways plus `d`. */
  function Insert(d: Doorway, ds: seq<Doorway>, horizontal: bool): (r: seq<Doorway>)
    ensures multiset(r) == multiset(ds) + multiset{d}
  {
    if ds == [] || Key(d, horizontal) <= Key(ds[0], horizontal) then [d] + ds
    else
      assert ds == [ds[0]] + ds[1..];
      [ds[0]] + Insert(d, ds[1..], horizontal)
  }

  /** Inserting adds `d` and nothing else. */
  lemma {:induction false} InsertMembers(d: Doorway, ds: seq<Doorway>, horizontal: bool)
    ensures forall e :: e in Insert(d, ds, horizontal) ==> e == d || e in ds
  {
    if ds == [] || Key(d, horizontal) <= Key(ds[0], horizontal) {
    } else {
      InsertMembers(d, ds[1..], horizontal);
    }
  }

  /** Inserting into an ordered list keeps it ordered. */
  lemma {:induction false} InsertSorted(d: Doorway, ds: seq<Doorway>, horizontal: bool)
    requires SortedAlong(ds, horizontal)
    ensures SortedAlong(Insert(d, ds, horizontal), horizontal)
  {
    if ds == [] || Key(d, horizontal) <= Key(ds[0], horizontal) {
    } else {
      var tail := ds[1..];
      var rest := Insert(d, tail, horizontal);
      InsertSorted(d, tail, horizontal);
      InsertMembers(d, tail, horizontal);
      assert forall k :: 0 <= k < |tail| ==> Key(ds[0], horizontal) <= Key(tail[k], horizontal) by {
        forall k | 0 <= k < |tail| ensures Key(ds[0], horizontal) <= Key(tail[k], horizontal) {
          assert tail[k] == ds[k + 1];
        }
      }
      assert forall e :: e in rest ==> Key(ds[0], horizontal) <= Key(e, horizontal);
    }
  }

  /**
   * The comparator sort of createWallSegments (`a.x - b.x` on a horizontal
   * wall, `a.z - b.z` otherwise): ordered along the wall, same doorways.
   */
  function SortAlong(ds: seq<Doorway>, horizontal: bool): (r: seq<Doorway>)
    ensures SortedAlong(r, horizontal)
    ensures multiset(r) == multiset(ds)
    ensures |r| == |ds|
  {
    if ds == [] then []
    else
      assert ds == [ds[0]] + ds[1..];
      var rest := SortAlong(ds[1..], horizontal);
      InsertSorted(ds[0], rest, horizontal);
      Insert(ds[0], rest, horizontal)
  }

  /** Sorting keeps exactly the doorways it was given. */
  lemma SortAlongMembers(ds: seq<Doorway>, horizontal: bool)
    ensures forall d :: d in SortAlong(ds, horizontal) <==> d in ds
  {
    var r := SortAlong(ds, horizontal);
    forall d ensures d in r <==> d in ds {
      assert d in r <==> d in multiset(r);
    }
  }

  /** Where the gap before a doorway ends: its centre minus half its width, on the wall line. */
  function DoorwayStart(d: Doorway, startX: real, startZ: real, endZ: real): Planar {
    if startZ == endZ then Planar(d.x - d.width / 2.0, startZ) else Planar(startX, d.z - d.width / 2.0)
  }

  /** Where the wall resumes after a doorway: its centre plus half its width, on the wall line. */
  function DoorwayEnd(d: Doorway, startX: real, startZ: real, endZ: real): Planar {
    if startZ == endZ then Planar(d.x + d.width / 2.0, startZ) else Planar(startX, d.z + d.width / 2.0)
  }

  /** The createDoor call for a doorway: 0.2 deep across the wall, as wide as the doorway along it. */
  function DoorFor(d: Doorway, startX: real, startZ: real, endZ: real, wallHeight: real): DoorSpec {
    var h := startZ == endZ;
    DoorSpec(if h then d.x else startX, 0.0, if h then startZ else d.z,
             if h then d.width else THICKNESS, wallHeight, if h then THICKNESS else d.width, h)
  }

  /** The cursor once the doorways `ds` have been passed. */
  function CursorAfter(ds: seq<Doorway>, startX: real, startZ: real, endZ: real): Planar {
    if ds == [] then Planar(startX, startZ) else DoorwayEnd(ds[|ds| - 1], startX, startZ, endZ)
  }

  /** The gap createWallSegments emits before doorway `d` with the cursor at `cursor`: none unless it has positive length. */
  function GapBefore(cursor: Planar, d: Doorway, startX: real, startZ: real, endX: real, endZ: real): seq<Segment> {
    var doorwayStart := DoorwayStart(d, startX, startZ, endZ);
    if (startZ == endZ && doorwayStart.x > cursor.x) || (startX == endX && doorwayStart.z > cursor.z)
    then [Segment(cursor.x, cursor.z, doorwayStart.x, doorwayStart.z)]
    else []
  }

  /** The gaps emitted while passing the doorways `ds` in order, starting from the wall start. */
  function Gaps(ds: seq<Doorway>, startX: real, startZ: real, endX: real, endZ: real): seq<Segment>
    decreases |ds|
  {
    if ds == [] then []
    else
      var passed := ds[..|ds| - 1];
      Gaps(passed, startX, startZ, endX, endZ)
      + GapBefore(CursorAfter(passed, startX, startZ, endZ), ds[|ds| - 1], startX, startZ, endX, endZ)
  }

  /** The final segment from the cursor to the wall end, when it has positive length. */
  function TailSegment(cursor: Planar, startX: real, startZ: real, endX: real, endZ: real): seq<Segment> {
    if (startZ == endZ && endX > cursor.x) || (startX == endX && endZ > cursor.z)
    then [Segment(cursor.x, cursor.z, endX, endZ)]
    else []
  }

  /** The doorways createWallSegments passes, in the order it passes them. */
  function WallDoorways(startX: real, startZ: real, endX: real, endZ: real, doorwayList: seq<Doorway>): seq<Doorway> {
    SortAlong(OnWall(doorwayList, startX, startZ, endX, endZ), startZ == endZ)
  }

  /** The segments createWallSegments returns: the gaps before the sorted doorways, then the tail. */
  function WallSegments(startX: real, startZ: real, endX: real, endZ: real, doorwayList: seq<Doorway>): seq<Segment> {
    var sorted := WallDoorways(startX, startZ, endX, endZ, doorwayList);
    Gaps(sorted, startX, startZ, endX, endZ)
    + TailSegment(CursorAfter(sorted, startX, startZ, endZ), startX, startZ, endX, endZ)
  }

  /** The createDoor calls createWallSegments makes: one per doorway on the wall, in sorted order. */
  function WallDoors(startX: real, startZ: real, endX: real, endZ: real, doorwayList: seq<Doorway>,
                     wallHeight: real): (doors: seq<DoorSpec>)
    ensures var sorted := WallDoorways(startX, startZ, endX, endZ, doorwayList);
            |doors| == |sorted| &&
            forall k :: 0 <= k < |sorted| ==> doors[k] == DoorFor(sorted[k], startX, startZ, endZ, wallHeight)
  {
    var sorted := WallDoorways(startX, startZ, endX, endZ, doorwayList);
    seq(|sorted|, k requires 0 <= k < |sorted| => DoorFor(sorted[k], startX, startZ, endZ, wallHeight))
  }

  /** A point's coordinate along the wall: x on a horizontal wall, z otherwise. */
  function Along(p: Planar, horizontal: bool): real {
    if horizontal then p.x else p.z
  }

  /** A segment's start and end measured along the wall. */
  function SegStart(s: Segment, horizontal: bool): real {
    if horizontal then s.startX else s.startZ
  }

  function SegEnd(s: Segment, horizontal: bool): real {
    if horizontal then s.endX else s.endZ
  }

  /** The segment lies on the wall line and has positive length along it. */
  predicate OnLine(s: Segment, startX: real, startZ: real, endZ: real) {
    if startZ == endZ then s.startZ == startZ && s.endZ == startZ && s.startX < s.endX
    else s.startX == startX && s.endX == startX && s.startZ < s.endZ
  }

  /** The segment lies between two points of the wall, measured along it. */
  predicate WithinWall(s: Segment, horizontal: bool, wallStart: real, wallEnd: real) {
    wallStart <= SegStart(s, horizontal) && SegEnd(s, horizontal) <= wallEnd
  }

  predicate AllWithinWall(segments: seq<Segment>, horizontal: bool, wallStart: real, wallEnd: real) {
    forall s :: s in segments ==> WithinWall(s, horizontal, wallStart, wallEnd)
  }

  /** Every segment ends no later than any later segment starts. */
  predicate Ordered(segments: seq<Segment>, horizontal: bool) {
    forall i, j :: 0 <= i < j < |segments| ==> SegEnd(segments[i], horizontal) <= SegStart(segments[j], horizontal)
  }

  /** No segment of `segments` reaches beyond `bound` along the wall. */
  predicate EndsBy(segments: seq<Segment>, horizontal: bool, bound: real) {
    forall s :: s in segments ==> SegEnd(s, horizontal) <= bound
  }

  /** Appending a segment that starts where every earlier one has ended keeps the layout. */
  lemma AppendOrdered(segments: seq<Segment>, s: Segment, horizontal: bool, wallStart: real, wallEnd: real)
    requires Ordered(segments, horizontal) && EndsBy(segments, horizontal, SegStart(s, horizontal))
    requires AllWithinWall(segments, horizontal, wallStart, wallEnd) && WithinWall(s, horizontal, wallStart, wallEnd)
    ensures Ordered(segments + [s], horizontal)
    ensures AllWithinWall(segments + [s], horizontal, wallStart, wallEnd)
  {
    var r := segments + [s];
    forall i, j | 0 <= i < j < |r| ensures SegEnd(r[i], horizontal) <= SegStart(r[j], horizontal) {
      if j == |segments| {
        assert r[i] in segments;
      }
    }
  }

  predicate NonNegativeWidths(ds: seq<Doorway>) {
    forall d :: d in ds ==> d.width >= 0.0
  }

  /**
   * The layout the doorway loop keeps with non-negative widths: every segment
   * lies on the wall, in order, and ends by `mark`, the key of the last doorway
   * passed, which the cursor has reached.
   */
  predicate Layout(segments: seq<Segment>, horizontal: bool, wallStart: real, wallEnd: real, mark: real, cursorAlong: real) {
    && wallStart <= mark <= cursorAlong
    && EndsBy(segments, horizontal, mark)
    && AllWithinWall(segments, horizontal, wallStart, wallEnd)
    && Ordered(segments, horizontal)
  }

  /** Passing a doorway on the wall, ahead of `mark`, with a gap before it. */
  lemma GapKeepsLayout(segments: seq<Segment>, gap: Segment, horizontal: bool, wallStart: real, wallEnd: real,
                       mark: real, cursorAlong: real, key: real, width: real)
    requires Layout(segments, horizontal, wallStart, wallEnd, mark, cursorAlong)
    requires mark <= key <= wallEnd && width >= 0.0
    requires SegStart(gap, horizontal) == cursorAlong && SegEnd(gap, horizontal) == key - width / 2.0
    ensures Layout(segments + [gap], horizontal, wallStart, wallEnd, key, key + width / 2.0)
  {
    AppendOrdered(segments, gap, horizontal, wallStart, wallEnd);
  }

  /** Passing a doorway on the wall, ahead of `mark`, with no gap before it. */
  lemma NoGapKeepsLayout(segments: seq<Segment>, horizontal: bool, wallStart: real, wallEnd: real,
                         mark: real, cursorAlong: real, key: real, width: real)
    requires Layout(segments, horizontal, wallStart, wallEnd, mark, cursorAlong)
    requires mark <= key && width >= 0.0
    ensures Layout(segments, horizontal, wallStart, wallEnd, key, key + width / 2.0)
  {
  }

  /** Where `Layout` measures from before any doorway: the start of the wall, along it. */
  function LastKey(ds: seq<Doorway>, horizontal: bool, wallStart: real): real {
    if ds == [] then wallStart else Key(ds[|ds| - 1], horizontal)
  }

  /**
   * Every gap emitted before the doorways `ds` lies on the wall line with
   * positive length, there is at most one per doorway, and a wall along
   * neither axis gets none.
   */
  lemma {:induction false} GapsOnLine(ds: seq<Doorway>, startX: real, startZ: real, endX: real, endZ: real)
    ensures var gaps := Gaps(ds, startX, startZ, endX, endZ);
            && |gaps| <= |ds|
            && (forall s :: s in gaps ==> OnLine(s, startX, startZ, endZ))
            && (startZ != endZ && startX != endX ==> gaps == [])
    decreases |ds|
  {
    if ds != [] {
      var passed := ds[..|ds| - 1];
      GapsOnLine(passed, startX, startZ, endX, endZ);
      var c := CursorAfter(passed, startX, startZ, endZ);
      assert startZ == endZ ==> c.z == startZ;
      assert startZ != endZ ==> c.x == startX;
    }
  }

  /**
   * Passing one more doorway `d`, on the wall, of non-negative width and not
   * behind the last one passed, keeps the layout of the gaps.
   */
  lemma GapsLayoutStep(passed: seq<Doorway>, d: Doorway, startX: real, startZ: real, endX: real, endZ: real)
    requires IsOnWall(d, startX, startZ, endX, endZ) && d.width >= 0.0
    requires var h := startZ == endZ;
             var wallStart := if h then startX else startZ;
             var wallEnd := if h then endX else endZ;
             && LastKey(passed, h, wallStart) <= Key(d, h)
             && Layout(Gaps(passed, startX, startZ, endX, endZ), h, wallStart, wallEnd,
                       LastKey(passed, h, wallStart), Along(CursorAfter(passed, startX, startZ, endZ), h))
    ensures var h := startZ == endZ;
            var wallStart := if h then startX else startZ;
            var wallEnd := if h then endX else endZ;
            var ds := passed + [d];
            Layout(Gaps(ds, startX, startZ, endX, endZ), h, wallStart, wallEnd,
                   LastKey(ds, h, wallStart), Along(CursorAfter(ds, startX, startZ, endZ), h))
  {
    var h := startZ == endZ;
    var wallStart := if h then startX else startZ;
    var wallEnd := if h then endX else endZ;
    var ds := passed + [d];
    assert ds[..|ds| - 1] == passed && ds[|ds| - 1] == d;
    var c := CursorAfter(passed, startX, startZ, endZ);
    var gaps := Gaps(passed, startX, startZ, endX, endZ);
    var gap := GapBefore(c, d, startX, startZ, endX, endZ);
    var mark := LastKey(passed, h, wallStart);
    var key := Key(d, h);
    assert Gaps(ds, startX, startZ, endX, endZ) == gaps + gap;
    assert LastKey(ds, h, wallStart) == key;
    assert Along(CursorAfter(ds, startX, startZ, endZ), h) == key + d.width / 2.0;
    assert key <= wallEnd;
    if gap != [] {
      assert SegStart(gap[0], h) == Along(c, h) && SegEnd(gap[0], h) == key - d.width / 2.0;
      GapKeepsLayout(gaps, gap[0], h, wallStart, wallEnd, mark, Along(c, h), key, d.width);
    } else {
      NoGapKeepsLayout(gaps, h, wallStart, wallEnd, mark, Along(c, h), key, d.width);
    }
  }

  /**
   * Dropping the last of the doorways on a wall, sorted along it and of
   * non-negative width, leaves doorways of the same kind, none of them ahead
   * of the one dropped.
   */
  lemma DropLastDoorway(ds: seq<Doorway>, startX: real, startZ: real, endX: real, endZ: real)
    requires ds != []
    requires forall d :: d in ds ==> IsOnWall(d, startX, startZ, endX, endZ)
    requires SortedAlong(ds, startZ == endZ)
    requires NonNegativeWidths(ds)
    ensures var passed := ds[..|ds| - 1];
            var d := ds[|ds| - 1];
            && (forall e :: e in passed ==> IsOnWall(e, startX, startZ, endX, endZ))
            && SortedAlong(passed, startZ == endZ)
            && NonNegativeWidths(passed)
            && IsOnWall(d, startX, startZ, endX, endZ) && d.width >= 0.0
            && LastKey(passed, startZ == endZ, if startZ == endZ then startX else startZ) <= Key(d, startZ == endZ)
  {
    var h := startZ == endZ;
    var n := |ds|;
    var passed := ds[..n - 1];
    assert forall e :: e in passed ==> e in ds;
    assert ds[n - 1] in ds;
    if passed != [] {
      assert passed[|passed| - 1] == ds[n - 2];
      assert Key(ds[n - 2], h) <= Key(ds[n - 1], h);
    }
  }

  /**
   * With the doorways on the wall, sorted along it and of non-negative width,
   * the gaps before them keep the layout: within the wall, in order, and ending
   * by the last doorway's key, which the cursor has reached.
   */
  lemma {:induction false} GapsLayout(ds: seq<Doorway>, startX: real, startZ: real, endX: real, endZ: real)
    requires forall d :: d in ds ==> IsOnWall(d, startX, startZ, endX, endZ)
    requires SortedAlong(ds, startZ == endZ)
    requires NonNegativeWidths(ds)
    ensures var h := startZ == endZ;
            var wallStart := if h then startX else startZ;
            var wallEnd := if h then endX else endZ;
            Layout(Gaps(ds, startX, startZ, endX, endZ), h, wallStart, wallEnd,
                   LastKey(ds, h, wallStart), Along(CursorAfter(ds, startX, startZ, endZ), h))
    decreases |ds|
  {
    if ds != [] {
      var passed := ds[..|ds| - 1];
      var d := ds[|ds| - 1];
      DropLastDoorway(ds, startX, startZ, endX, endZ);
      GapsLayout(passed, startX, startZ, endX, endZ);
      GapsLayoutStep(passed, d, startX, startZ, endX, endZ);
      assert ds == passed + [d];
    }
  }

  /**
   * The doorway loop of createWallSegments over the doorways of one wall,
   * sorted along it: the gap before each doorway is emitted when it has positive
   * length, one door is created per doorway, and the cursor ends just after the
   * last doorway.
   */
  method PlaceDoorways(startX: real, startZ: real, endX: real, endZ: real, sorted: seq<Doorway>, wallHeight: real)
    returns (segments: seq<Segment>, doors: seq<DoorSpec>, cursor: Planar)
    ensures |doors| == |sorted|
    ensures forall k :: 0 <= k < |sorted| ==> doors[k] == DoorFor(sorted[k], startX, startZ, endZ, wallHeight)
    ensures segments == Gaps(sorted, startX, startZ, endX, endZ)
    ensures cursor == CursorAfter(sorted, startX, startZ, endZ)
  {
    var h := startZ == endZ;
    segments, doors := [], [];
    cursor := Planar(startX, startZ);
    for i := 0 to |sorted|
      invariant |doors| == i
      invariant forall k :: 0 <= k < i ==> doors[k] == DoorFor(sorted[k], startX, startZ, endZ, wallHeight)
      invariant segments == Gaps(sorted[..i], startX, startZ, endX, endZ)
      invariant cursor == CursorAfter(sorted[..i], startX, startZ, endZ)
    {
      var doorway := sorted[i];
      var doorwayStart := DoorwayStart(doorway, startX, startZ, endZ);
      if (h && doorwayStart.x > cursor.x) || (startX == endX && doorwayStart.z > cursor.z) {
        segments := segments + [Segment(cursor.x, cursor.z, doorwayStart.x, doorwayStart.z)];
      }
      doors := doors + [DoorFor(doorway, startX, startZ, endZ, wallHeight)];
      cursor := DoorwayEnd(doorway, startX, startZ, endZ);
      assert sorted[..i + 1] == sorted[..i] + [doorway];
      assert sorted[..i + 1][..i] == sorted[..i];
    }
    assert sorted[..|sorted|] == sorted;
  }

  /**
   * The segments createWallSegments returns for a wall: each on the wall line
   * with positive length, at most one more than the doorways on the wall, and
   * none for a wall along neither axis.
   */
  lemma WallSegmentsShape(startX: real, startZ: real, endX: real, endZ: real, doorwayList: seq<Doorway>)
    ensures var segments := WallSegments(startX, startZ, endX, endZ, doorwayList);
            && |segments| <= |OnWall(doorwayList, startX, startZ, endX, endZ)| + 1
            && (forall s :: s in segments ==> OnLine(s, startX, startZ, endZ))
            && (startZ != endZ && startX != endX ==> segments == [])
  {
    var h := startZ == endZ;
    var relevant := OnWall(doorwayList, startX, startZ, endX, endZ);
    var sorted := SortAlong(relevant, h);
    SortAlongMembers(relevant, h);
    var gaps := Gaps(sorted, startX, startZ, endX, endZ);
    var cursor := CursorAfter(sorted, startX, startZ, endZ);
    var tail := TailSegment(cursor, startX, startZ, endX, endZ);
    GapsOnLine(sorted, startX, startZ, endX, endZ);
    assert startZ == endZ ==> cursor.z == startZ;
    assert startZ != endZ ==> cursor.x == startX;
    assert forall s :: s in tail ==> OnLine(s, startX, startZ, endZ);
    assert WallSegments(startX, startZ, endX, endZ, doorwayList) == gaps + tail;
  }

  /** A wall with no doorway on it is one segment from end to end, or none when it has no positive length along an axis. */
  lemma WallSegmentsWholeWall(startX: real, startZ: real, endX: real, endZ: real, doorwayList: seq<Doorway>)
    requires OnWall(doorwayList, startX, startZ, endX, endZ) == []
    ensures WallSegments(startX, startZ, endX, endZ, doorwayList)
              == if (startZ == endZ && endX > startX) || (startX == endX && endZ > startZ)
                 then [Segment(startX, startZ, endX, endZ)] else []
  {
    assert WallDoorways(startX, startZ, endX, endZ, doorwayList) == [];
  }

  /** The last segment of a wall is the tail from the cursor to the wall end whenever the cursor stops short of it. */
  lemma WallSegmentsTail(startX: real, startZ: real, endX: real, endZ: real, doorwayList: seq<Doorway>)
    ensures var segments := WallSegments(startX, startZ, endX, endZ, doorwayList);
            var c := CursorAfter(WallDoorways(startX, startZ, endX, endZ, doorwayList), startX, startZ, endZ);
            (startZ == endZ && endX > c.x) || (startX == endX && endZ > c.z) ==>
              |segments| > 0 && segments[|segments| - 1] == Segment(c.x, c.z, endX, endZ)
  {
  }

  /**
   * With doorways of non-negative width, the segments of a wall lie between
   * the wall's ends, in increasing order along it.
   */
  lemma WallSegmentsOrdered(startX: real, startZ: real, endX: real, endZ: real, doorwayList: seq<Doorway>)
    requires NonNegativeWidths(doorwayList)
    ensures var segments := WallSegments(startX, startZ, endX, endZ, doorwayList);
            var h := startZ == endZ;
            && AllWithinWall(segments, h, if h then startX else startZ, if h then endX else endZ)
            && Ordered(segments, h)
  {
    var h := startZ == endZ;
    var relevant := OnWall(doorwayList, startX, startZ, endX, endZ);
    var sorted := SortAlong(relevant, h);
    SortAlongMembers(relevant, h);
    var wallStart := if h then startX else startZ;
    var wallEnd := if h then endX else endZ;
    var gaps := Gaps(sorted, startX, startZ, endX, endZ);
    var cursor := CursorAfter(sorted, startX, startZ, endZ);
    var tail := TailSegment(cursor, startX, startZ, endX, endZ);
    assert NonNegativeWidths(sorted);
    GapsLayout(sorted, startX, startZ, endX, endZ);
    NoGapKeepsLayout(gaps, h, wallStart, wallEnd, LastKey(sorted, h, wallStart), Along(cursor, h), Along(cursor, h), 0.0);
    if tail != [] {
      assert SegStart(tail[0], h) == Along(cursor, h) && SegEnd(tail[0], h) == wallEnd;
      AppendOrdered(gaps, tail[0], h, wallStart, wallEnd);
    }
  }

  /**
   * createWallSegments: keep the doorways on the wall, sort them along it, run
   * the doorway loop, then emit the tail from the cursor to the wall end when it
   * has positive length.
   */
  method CreateWallSegments(startX: real, startZ: real, endX: real, endZ: real,
                            doorwayList: seq<Doorway>, wallHeight: real)
    returns (segments: seq<Segment>, doors: seq<DoorSpec>)
    ensures segments == WallSegments(startX, startZ, endX, endZ, doorwayList)
    ensures doors == WallDoors(startX, startZ, endX, endZ, doorwayList, wallHeight)
  {
    var h := startZ == endZ;
    var relevant := OnWall(doorwayList, startX, startZ, endX, endZ);
    var sorted := SortAlong(relevant, h);
    var cursor;
    segments, doors, cursor := PlaceDoorways(startX, startZ, endX, endZ, sorted, wallHeight);
    assert doors == WallDoors(startX, startZ, endX, endZ, doorwayList, wallHeight);
    if (h && endX > cursor.x) || (startX == endX && endZ > cursor.z) {
      segments := segments + [Segment(cursor.x, cursor.z, endX, endZ)];
    }
  }

  /** A segment createRoom turns into a wall: positive length along the axis its own end points choose. */
  predicate Buildable(s: Segment) {
    if s.startZ == s.endZ then s.endX > s.startX else s.endZ > s.startZ
  }

  predicate AllBuildable(segments: seq<Segment>) {
    forall s :: s in segments ==> Buildable(s)
  }

  /** The box covers exactly the segment along its axis and is 0.2 thick across it. */
  predicate Covers(w: WallBox, s: Segment) {
    if s.startZ == s.endZ then
      && w.z == s.startZ && w.depth == THICKNESS
      && w.x - w.width / 2.0 == s.startX && w.x + w.width / 2.0 == s.endX
    else
      && w.x == s.startX && w.width == THICKNESS
      && w.z - w.depth / 2.0 == s.startZ && w.z + w.depth / 2.0 == s.endZ
  }

  /**
   * The segment-to-wall loop of createRoom: a box per segment, centred on it,
   * kept only when both of its horizontal sizes are positive.
   */
  method BuildWalls(segments: seq<Segment>, wallHeight: real) returns (walls: seq<WallBox>)
    ensures |walls| <= |segments|
    ensures forall w :: w in walls ==> w.width > 0.0 && w.depth > 0.0 && w.height == wallHeight
    ensures AllBuildable(segments) ==>
              |walls| == |segments| && forall i :: 0 <= i < |segments| ==> Covers(walls[i], segments[i])
  {
    walls := [];
    for i := 0 to |segments|
      invariant |walls| <= i
      invariant forall w :: w in walls ==> w.width > 0.0 && w.depth > 0.0 && w.height == wallHeight
      invariant AllBuildable(segments) ==>
                  |walls| == i && forall k :: 0 <= k < i ==> Covers(walls[k], segments[k])
    {
      var segment := segments[i];
      assert segment in segments;
      var wallWidth, wallDepth, wallX, wallZ;
      if segment.startZ == segment.endZ {
        wallWidth := segment.endX - segment.startX;
        wallDepth := THICKNESS;
        wallX := segment.startX + wallWidth / 2.0;
        wallZ := segment.startZ;
      } else {
        wallWidth := THICKNESS;
        wallDepth := segment.endZ - segment.startZ;
        wallX := segment.startX;
        wallZ := segment.startZ + wallDepth / 2.0;
      }
      if wallWidth > 0.0 && wallDepth > 0.0 {
        walls := walls + [WallBox(wallX, wallZ, wallWidth, wallHeight, wallDepth)];
      }
    }
  }

  /** A box covering a segment along x is determined by it: centred on it, as long as it, 0.2 deep. */
  lemma CoveringBoxAlongX(w: WallBox, s: Segment)
    requires Covers(w, s) && s.startZ == s.endZ
    ensures w.x == (s.startX + s.endX) / 2.0 && w.z == s.startZ && w.width == s.endX - s.startX && w.depth == THICKNESS
  {
  }

  /** A box covering a segment along z is determined by it: centred on it, as long as it, 0.2 wide. */
  lemma CoveringBoxAlongZ(w: WallBox, s: Segment)
    requires Covers(w, s) && s.startZ != s.endZ
    ensures w.x == s.startX && w.z == (s.startZ + s.endZ) / 2.0 && w.depth == s.endZ - s.startZ && w.width == THICKNESS
  {
  }

  /**
   * The wall line createRoom gives each side of a room at (x, z) of the given
   * width and depth: north and south run along x, east and west along z.
   */
  function SideLine(x: real, z: real, width: real, depth: real, side: Side): Segment
    requires side != Other
  {
    match side
    case North => Segment(x, z, x + width, z)
    case East => Segment(x + width, z, x + width, z + depth)
    case South => Segment(x, z + depth, x + width, z + depth)
    case West => Segment(x, z, x, z + depth)
  }

  /** The four full wall lines of a room: north, east, south, west. */
  function RoomOutline(x: real, z: real, width: real, depth: real): seq<Segment> {
    [SideLine(x, z, width, depth, North), SideLine(x, z, width, depth, East),
     SideLine(x, z, width, depth, South), SideLine(x, z, width, depth, West)]
  }

  /** The boxes covering the four full wall lines of a room of positive size, one by one. */
  lemma EmptyRoomWalls(walls: seq<WallBox>, x: real, z: real, width: real, depth: real, wallHeight: real)
    requires width > 0.0 && depth > 0.0
    requires |walls| == 4 && forall i :: 0 <= i < 4 ==> Covers(walls[i], RoomOutline(x, z, width, depth)[i])
    requires forall w :: w in walls ==> w.height == wallHeight
    ensures walls == [WallBox(x + width / 2.0, z, width, wallHeight, THICKNESS),
                      WallBox(x + width, z + depth / 2.0, THICKNESS, wallHeight, depth),
                      WallBox(x + width / 2.0, z + depth, width, wallHeight, THICKNESS),
                      WallBox(x, z + depth / 2.0, THICKNESS, wallHeight, depth)]
  {
    var outline := RoomOutline(x, z, width, depth);
    assert walls[0] in walls && walls[1] in walls && walls[2] in walls && walls[3] in walls;
    CoveringBoxAlongX(walls[0], outline[0]);
    CoveringBoxAlongZ(walls[1], outline[1]);
    CoveringBoxAlongX(walls[2], outline[2]);
    CoveringBoxAlongZ(walls[3], outline[3]);
  }

  /** The segments of one side of a room: its wall line split at the doorways listed for that side. */
  function SideWallSegments(x: real, z: real, width: real, depth: real, doorways: seq<Doorway>, side: Side): seq<Segment>
    requires side != Other
  {
    var line := SideLine(x, z, width, depth, side);
    WallSegments(line.startX, line.startZ, line.endX, line.endZ, OnSide(doorways, side))
  }

  /** The doors of one side of a room, one per doorway listed for it that lies on its wall line. */
  function SideWallDoors(x: real, z: real, width: real, depth: real, doorways: seq<Doorway>, side: Side,
                         wallHeight: real): seq<DoorSpec>
    requires side != Other
  {
    var line := SideLine(x, z, width, depth, side);
    WallDoors(line.startX, line.startZ, line.endX, line.endZ, OnSide(doorways, side), wallHeight)
  }

  /** The segments of a room's four sides, north, east, south, west, in that order. */
  function RoomSegments(x: real, z: real, width: real, depth: real, doorways: seq<Doorway>): seq<Segment> {
    SideWallSegments(x, z, width, depth, doorways, North) + SideWallSegments(x, z, width, depth, doorways, East)
    + SideWallSegments(x, z, width, depth, doorways, South) + SideWallSegments(x, z, width, depth, doorways, West)
  }

  /** The doors of a room's four sides, in the same order. */
  function RoomDoors(x: real, z: real, width: real, depth: real, doorways: seq<Doorway>, wallHeight: real): seq<DoorSpec> {
    SideWallDoors(x, z, width, depth, doorways, North, wallHeight)
    + SideWallDoors(x, z, width, depth, doorways, East, wallHeight)
    + SideWallDoors(x, z, width, depth, doorways, South, wallHeight)
    + SideWallDoors(x, z, width, depth, doorways, West, wallHeight)
  }

  /** Every segment of one wall line is one a wall can be built on. */
  lemma WallSegmentsBuildable(startX: real, startZ: real, endX: real, endZ: real, doorwayList: seq<Doorway>)
    ensures AllBuildable(WallSegments(startX, startZ, endX, endZ, doorwayList))
  {
    WallSegmentsShape(startX, startZ, endX, endZ, doorwayList);
  }

  lemma ConcatBuildable(north: seq<Segment>, east: seq<Segment>, south: seq<Segment>, west: seq<Segment>)
    requires AllBuildable(north) && AllBuildable(east) && AllBuildable(south) && AllBuildable(west)
    ensures AllBuildable(north + east + south + west)
  {
  }

  /** Every segment of a room's four sides is one a wall can be built on. */
  lemma RoomSegmentsBuildable(x: real, z: real, width: real, depth: real, doorways: seq<Doorway>)
    ensures AllBuildable(RoomSegments(x, z, width, depth, doorways))
  {
    SideSegmentsBuildable(x, z, width, depth, doorways, North);
    SideSegmentsBuildable(x, z, width, depth, doorways, East);
    SideSegmentsBuildable(x, z, width, depth, doorways, South);
    SideSegmentsBuildable(x, z, width, depth, doorways, West);
    ConcatBuildable(SideWallSegments(x, z, width, depth, doorways, North),
                    SideWallSegments(x, z, width, depth, doorways, East),
                    SideWallSegments(x, z, width, depth, doorways, South),
                    SideWallSegments(x, z, width, depth, doorways, West));
  }

  lemma SideSegmentsBuildable(x: real, z: real, width: real, depth: real, doorways: seq<Doorway>, side: Side)
    requires side != Other
    ensures AllBuildable(SideWallSegments(x, z, width, depth, doorways, side))
  {
    var line := SideLine(x, z, width, depth, side);
    WallSegmentsBuildable(line.startX, line.startZ, line.endX, line.endZ, OnSide(doorways, side));
  }

  /** A side with no doorway listed for it has no door. */
  lemma SideWithoutDoors(x: real, z: real, width: real, depth: real, side: Side, wallHeight: real)
    requires side != Other
    ensures SideWallDoors(x, z, width, depth, [], side, wallHeight) == []
  {
    var line := SideLine(x, z, width, depth, side);
    assert OnSide([], side) == [];
    assert WallDoorways(line.startX, line.startZ, line.endX, line.endZ, []) == [];
  }

  /** A side with no doorway listed for it is, in a room of positive size, its whole wall line. */
  lemma SideWithoutDoorways(x: real, z: real, width: real, depth: real, side: Side)
    requires side != Other
    ensures width > 0.0 && depth > 0.0 ==>
              SideWallSegments(x, z, width, depth, [], side) == [SideLine(x, z, width, depth, side)]
  {
    var line := SideLine(x, z, width, depth, side);
    assert OnSide([], side) == [];
    WallSegmentsWholeWall(line.startX, line.startZ, line.endX, line.endZ, []);
  }

  /** A room without doorways has no doors. */
  lemma EmptyRoomDoors(x: real, z: real, width: real, depth: real, wallHeight: real)
    ensures RoomDoors(x, z, width, depth, [], wallHeight) == []
  {
    SideWithoutDoors(x, z, width, depth, North, wallHeight);
    SideWithoutDoors(x, z, width, depth, East, wallHeight);
    SideWithoutDoors(x, z, width, depth, South, wallHeight);
    SideWithoutDoors(x, z, width, depth, West, wallHeight);
  }

  /** A room of positive size without doorways has its four full wall lines as segments. */
  lemma EmptyRoomSegments(x: real, z: real, width: real, depth: real)
    requires width > 0.0 && depth > 0.0
    ensures RoomSegments(x, z, width, depth, []) == RoomOutline(x, z, width, depth)
  {
    SideWithoutDoorways(x, z, width, depth, North);
    SideWithoutDoorways(x, z, width, depth, East);
    SideWithoutDoorways(x, z, width, depth, South);
    SideWithoutDoorways(x, z, width, depth, West);
    FourSingletons(SideLine(x, z, width, depth, North), SideLine(x, z, width, depth, East),
                   SideLine(x, z, width, depth, South), SideLine(x, z, width, depth, West));
  }

  lemma FourSingletons(north: Segment, east: Segment, south: Segment, west: Segment)
    ensures [north] + [east] + [south] + [west] == [north, east, south, west]
  {
  }

  /**
   * One side of createRoom: createWallSegments over the side's wall line and
   * the doorways listed for that side.
   */
  method SideSegments(x: real, z: real, width: real, depth: real, doorways: seq<Doorway>, side: Side,
                      wallHeight: real)
    returns (segments: seq<Segment>, doors: seq<DoorSpec>)
    requires side != Other
    ensures segments == SideWallSegments(x, z, width, depth, doorways, side)
    ensures doors == SideWallDoors(x, z, width, depth, doorways, side, wallHeight)
  {
    var line := SideLine(x, z, width, depth, side);
    segments, doors := CreateWallSegments(line.startX, line.startZ, line.endX, line.endZ, OnSide(doorways, side), wallHeight);
  }

  /**
   * The walls and doors of createRoom: the four sides, each split at the
   * doorways listed for it, then one wall per segment of all four, centred on
   * it. An empty room of positive size gets exactly its four full-length walls.
   */
  method CreateRoomWalls(x: real, z: real, width: real, depth: real, wallHeight: real, doorways: seq<Doorway>)
    returns (walls: seq<WallBox>, doors: seq<DoorSpec>)
    ensures doors == RoomDoors(x, z, width, depth, doorways, wallHeight)
    ensures doorways == [] ==> doors == []
    ensures |walls| == |RoomSegments(x, z, width, depth, doorways)|
    ensures forall i :: 0 <= i < |walls| ==> Covers(walls[i], RoomSegments(x, z, width, depth, doorways)[i])
    ensures forall w :: w in walls ==> w.width > 0.0 && w.depth > 0.0 && w.height == wallHeight
    ensures width > 0.0 && depth > 0.0 && doorways == [] ==>
              walls == [WallBox(x + width / 2.0, z, width, wallHeight, THICKNESS),
                        WallBox(x + width, z + depth / 2.0, THICKNESS, wallHeight, depth),
                        WallBox(x + width / 2.0, z + depth, width, wallHeight, THICKNESS),
                        WallBox(x, z + depth / 2.0, THICKNESS, wallHeight, depth)]
  {
    var north, northDoors := SideSegments(x, z, width, depth, doorways, North, wallHeight);
    var east, eastDoors := SideSegments(x, z, width, depth, doorways, East, wallHeight);
    var south, southDoors := SideSegments(x, z, width, depth, doorways, South, wallHeight);
    var west, westDoors := SideSegments(x, z, width, depth, doorways, West, wallHeight);
    doors := northDoors + eastDoors + southDoors + westDoors;
    var allSegments := north + east + south + west;
    RoomSegmentsBuildable(x, z, width, depth, doorways);
    walls := BuildWalls(allSegments, wallHeight);
    if doorways == [] {
      EmptyRoomDoors(x, z, width, depth, wallHeight);
      if width > 0.0 && depth > 0.0 {
        EmptyRoomSegments(x, z, width, depth);
        EmptyRoomWalls(walls, x, z, width, depth, wallHeight);
      }
    }
  }
}
