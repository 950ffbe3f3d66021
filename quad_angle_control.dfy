/**
 * The four-corner control that edits two ranges at once. In horizontal mode
 * the top edge carries one range and the bottom edge the other; in vertical
 * mode the left and right edges do. The corner points are kept in unit
 * coordinates, and a drag moves one corner along its edge, clamped so that
 * it neither leaves the unit square nor passes its partner on the same edge.
 */
module QuadAngle {
  import opened CoreTypes

  /** QuadAngleControl.Corner, with its raw values (the index into the
      point list). */
  datatype Corner = TopLeft | TopRight | BottomLeft | BottomRight {
    function RawValue(): (i: nat)
      ensures i < 4
    {
      match this
      case TopLeft => 0
      case TopRight => 1
      case BottomLeft => 2
      case BottomRight => 3
    }
  }

  /** The squared-distance threshold of a corner hit, in unit coordinates. */
  const DistanceThreshold: real := 0.1

  /** squreDistance: the squared Euclidean distance of two points. */
  function SquareDistance(lhs: Point, rhs: Point): (d: real)
    ensures d >= 0.0
    ensures d == 0.0 <==> lhs == rhs
  {
    var dx := lhs.x - rhs.x;
    var dy := lhs.y - rhs.y;
    SquareNonNegative(dx);
    SquareNonNegative(dy);
    dx * dx + dy * dy
  }

  /** The squared distance does not depend on the order of the points. */
  lemma {:induction false} SquareDistanceSymmetric(lhs: Point, rhs: Point)
    ensures SquareDistance(lhs, rhs) == SquareDistance(rhs, lhs)
  {
    assert (rhs.x - lhs.x) * (rhs.x - lhs.x) == (lhs.x - rhs.x) * (lhs.x - rhs.x);
    assert (rhs.y - lhs.y) * (rhs.y - lhs.y) == (lhs.y - rhs.y) * (lhs.y - rhs.y);
  }

  lemma SquareNonNegative(a: real)
    ensures a * a >= 0.0
    ensures a * a == 0.0 <==> a == 0.0
  {
    if a != 0.0 {
      assert (a * a) / a == a;
    }
  }

  /** getCorner: the first corner, in the order top left, top right, bottom
      left, bottom right, whose squared distance from the (unit) start
      location is below the threshold; none if no corner is that close. */
  function GetCorner(start: Point, points: seq<Point>): (c: Option<Corner>)
    requires |points| == 4
    ensures c.Some? ==> SquareDistance(start, points[c.value.RawValue()]) < DistanceThreshold
    ensures c.Some? ==>
      forall i :: 0 <= i < c.value.RawValue() ==> SquareDistance(start, points[i]) >= DistanceThreshold
    ensures c.None? ==> forall i :: 0 <= i < 4 ==> SquareDistance(start, points[i]) >= DistanceThreshold
  {
    if SquareDistance(start, points[0]) < DistanceThreshold then Some(TopLeft)
    else if SquareDistance(start, points[1]) < DistanceThreshold then Some(TopRight)
    else if SquareDistance(start, points[2]) < DistanceThreshold then Some(BottomLeft)
    else if SquareDistance(start, points[3]) < DistanceThreshold then Some(BottomRight)
    else None
  }

  /** A corner sitting exactly on the start location is always hit, unless
      an earlier corner is hit first. */
  lemma TouchingCornerIsHit(start: Point, points: seq<Point>, i: nat)
    requires |points| == 4 && i < 4 && points[i] == start
    ensures GetCorner(start, points).Some?
    ensures GetCorner(start, points).value.RawValue() <= i
  {
    assert SquareDistance(start, points[i]) == 0.0;
  }

  /** getPointsFromRange: the corner points (top left, top right, bottom
      left, bottom right) for two ranges. */
  function PointsFromRange(isHorizontal: bool, topOrLeft: ClosedRange, bottomOrRight: ClosedRange): (ps: seq<Point>)
    ensures |ps| == 4
    ensures OnEdges(isHorizontal, ps)
  {
    [ Point(if isHorizontal then topOrLeft.lower else 0.0,
            if isHorizontal then 0.0 else topOrLeft.lower),
      Point(if isHorizontal then topOrLeft.upper else 1.0,
            if isHorizontal then 0.0 else bottomOrRight.lower),
      Point(if isHorizontal then bottomOrRight.lower else 0.0,
            if isHorizontal then 1.0 else topOrLeft.upper),
      Point(if isHorizontal then bottomOrRight.upper else 1.0,
            if isHorizontal then 1.0 else bottomOrRight.upper) ]
  }

  /** The points lie on the edges that carry the ranges: the top and bottom
      edges (y = 0 and y = 1) in horizontal mode, the left and right edges
      (x = 0 and x = 1) in vertical mode. */
  predicate OnEdges(isHorizontal: bool, ps: seq<Point>)
    requires |ps| == 4
  {
    if isHorizontal then ps[0].y == 0.0 && ps[1].y == 0.0 && ps[2].y == 1.0 && ps[3].y == 1.0
    else ps[0].x == 0.0 && ps[1].x == 1.0 && ps[2].x == 0.0 && ps[3].x == 1.0
  }

  /** The two ranges that a set of corner points encodes. */
  function RangesOfPoints(isHorizontal: bool, ps: seq<Point>): (r: (ClosedRange, ClosedRange))
    requires |ps| == 4
    ensures OnEdges(isHorizontal, ps) ==> PointsFromRange(isHorizontal, r.0, r.1) == ps
  {
    if isHorizontal then (ClosedRange(ps[0].x, ps[1].x), ClosedRange(ps[2].x, ps[3].x))
    else (ClosedRange(ps[0].y, ps[2].y), ClosedRange(ps[1].y, ps[3].y))
  }

  /** Ranges → points → ranges is the identity, and points on the edges →
      ranges → points is the identity: the corner points and the two ranges
      carry the same information. */
  lemma PointsRangesRoundTrip(isHorizontal: bool, topOrLeft: ClosedRange, bottomOrRight: ClosedRange, ps: seq<Point>)
    requires |ps| == 4 && OnEdges(isHorizontal, ps)
    ensures RangesOfPoints(isHorizontal, PointsFromRange(isHorizontal, topOrLeft, bottomOrRight)) == (topOrLeft, bottomOrRight)
    ensures var (a, b) := RangesOfPoints(isHorizontal, ps); PointsFromRange(isHorizontal, a, b) == ps
  {
    var (a, b) := RangesOfPoints(isHorizontal, ps);
    var qs := PointsFromRange(isHorizontal, a, b);
    assert qs[0] == ps[0] && qs[1] == ps[1] && qs[2] == ps[2] && qs[3] == ps[3];
  }

  /** The coordinate a drag moves: x in horizontal mode, y in vertical mode. */
  function Coordinate(p: Point, isHorizontal: bool): real {
    if isHorizontal then p.x else p.y
  }

  /** The view extent along the drag direction. */
  function Extent(size: Size, isHorizontal: bool): real {
    if isHorizontal then size.width else size.height
  }

  /** The corner carries the lower bound of its range: the left corners in
      horizontal mode, the top corners in vertical mode. */
  predicate Leading(corner: Corner, isHorizontal: bool) {
    if isHorizontal then corner == TopLeft || corner == BottomLeft
    else corner == TopLeft || corner == TopRight
  }

  /** The corner lies on the edge of `topOrLeft`: the top edge in
      horizontal mode, the left edge in vertical mode. */
  predicate OnFirstRange(corner: Corner, isHorizontal: bool) {
    if isHorizontal then corner == TopLeft || corner == TopRight
    else corner == TopLeft || corner == BottomLeft
  }

  /** The corner that shares the dragged corner's range: its neighbour on
      the same horizontal edge in horizontal mode, on the same vertical edge
      in vertical mode. */
  function Partner(corner: Corner, isHorizontal: bool): (p: Corner)
    ensures OnFirstRange(p, isHorizontal) == OnFirstRange(corner, isHorizontal)
    ensures Leading(p, isHorizontal) != Leading(corner, isHorizontal)
  {
    match corner
    case TopLeft => if isHorizontal then TopRight else BottomLeft
    case TopRight => if isHorizontal then TopLeft else BottomRight
    case BottomLeft => if isHorizontal then BottomRight else TopLeft
    case BottomRight => if isHorizontal then BottomLeft else TopRight
  }

  /** The (minValue, maxValue) pair of the drag handler, in unit coordinates:
      how far the dragged corner may move back and forth before it leaves the
      square or passes its partner on the same edge. */
  function DragLimits(corner: Corner, isHorizontal: bool, ps: seq<Point>): (limits: (real, real))
    requires |ps| == 4
    ensures var c := Coordinate(ps[corner.RawValue()], isHorizontal);
      var partner := Coordinate(ps[Partner(corner, isHorizontal).RawValue()], isHorizontal);
      if Leading(corner, isHorizontal) then c + limits.0 == 0.0 && c + limits.1 == partner
      else c + limits.0 == partner && c + limits.1 == 1.0
  {
    var topLeft, topRight, bottomLeft, bottomRight := ps[0], ps[1], ps[2], ps[3];
    match corner
    case TopLeft =>
      (if isHorizontal then -topLeft.x else -topLeft.y,
       if isHorizontal then topRight.x - topLeft.x else bottomLeft.y - topLeft.y)
    case TopRight =>
      (if isHorizontal then topLeft.x - topRight.x else -topRight.y,
       if isHorizontal then 1.0 - topRight.x else bottomRight.y - topRight.y)
    case BottomLeft =>
      (if isHorizontal then -bottomLeft.x else topLeft.y - bottomLeft.y,
       if isHorizontal then bottomRight.x - bottomLeft.x else 1.0 - bottomLeft.y)
    case BottomRight =>
      (if isHorizontal then bottomLeft.x - bottomRight.x else topRight.y - bottomRight.y,
       if isHorizontal then 1.0 - bottomRight.x else 1.0 - bottomRight.y)
  }

  /** Both ranges are well formed and inside [0, 1]. */
  predicate UnitRanges(topOrLeft: ClosedRange, bottomOrRight: ClosedRange) {
    0.0 <= topOrLeft.lower <= topOrLeft.upper <= 1.0
    && 0.0 <= bottomOrRight.lower <= bottomOrRight.upper <= 1.0
  }

  /** `max(minValue, min(maxValue, t))` */
  function Clamp(t: real, lo: real, hi: real): (r: real)
    ensures lo <= hi ==> lo <= r <= hi
    ensures lo <= t <= hi ==> r == t
  {
    Max(lo, Min(hi, t))
  }

  /** The ranges after the dragged corner moved by `offset` (unit
      coordinates): the bound that the corner carries moves with it. */
  function RangesAfter(corner: Corner, isHorizontal: bool, topOrLeft: ClosedRange, bottomOrRight: ClosedRange,
                       offset: real): (r: (ClosedRange, ClosedRange))
    ensures var moved := if OnFirstRange(corner, isHorizontal) then r.0 else r.1;
      var before := if OnFirstRange(corner, isHorizontal) then topOrLeft else bottomOrRight;
      if Leading(corner, isHorizontal) then moved == ClosedRange(before.lower + offset, before.upper)
      else moved == ClosedRange(before.lower, before.upper + offset)
    ensures (OnFirstRange(corner, isHorizontal) ==> r.1 == bottomOrRight)
      && (!OnFirstRange(corner, isHorizontal) ==> r.0 == topOrLeft)
  {
    match corner
    case TopLeft =>
      (ClosedRange(topOrLeft.lower + offset, topOrLeft.upper), bottomOrRight)
    case TopRight =>
      if isHorizontal then (ClosedRange(topOrLeft.lower, topOrLeft.upper + offset), bottomOrRight)
      else (topOrLeft, ClosedRange(bottomOrRight.lower + offset, bottomOrRight.upper))
    case BottomLeft =>
      if isHorizontal then (topOrLeft, ClosedRange(bottomOrRight.lower + offset, bottomOrRight.upper))
      else (ClosedRange(topOrLeft.lower, topOrLeft.upper + offset), bottomOrRight)
    case BottomRight =>
      (topOrLeft, ClosedRange(bottomOrRight.lower, bottomOrRight.upper + offset))
  }

  /** For corner points built from ranges inside [0, 1], the drag limits
      bracket zero, and moving the corner by any offset within them keeps both
      ranges well formed and inside [0, 1]: the corner stays on the square
      and does not pass its partner. */
  lemma LimitsKeepRangesInUnit(corner: Corner, isHorizontal: bool, topOrLeft: ClosedRange, bottomOrRight: ClosedRange,
                               offset: real)
    requires UnitRanges(topOrLeft, bottomOrRight)
    ensures var (lo, hi) := DragLimits(corner, isHorizontal, PointsFromRange(isHorizontal, topOrLeft, bottomOrRight));
      lo <= 0.0 <= hi
    ensures var (lo, hi) := DragLimits(corner, isHorizontal, PointsFromRange(isHorizontal, topOrLeft, bottomOrRight));
      lo <= offset <= hi ==>
        var (a, b) := RangesAfter(corner, isHorizontal, topOrLeft, bottomOrRight, offset); UnitRanges(a, b)
  {
  }

  /** A translation clamped to the scaled limits, divided back by the view
      extent, lies within the limits. */
  lemma ClampWithinLimits(t: real, lo: real, hi: real, extent: real)
    requires extent > 0.0 && lo <= hi
    ensures lo * extent <= hi * extent
    ensures lo <= Clamp(t, lo * extent, hi * extent) / extent <= hi
  {
    assert hi * extent - lo * extent == (hi - lo) * extent;
    var c := Clamp(t, lo * extent, hi * extent);
    DivideBounds(c, lo, hi, extent);
  }

  /** The translation the drag handler keeps: the translation `t` along the
      drag direction clamped to the unit-coordinate `limits` scaled to a view
      of extent `e` (`minValue *= size`, `maxValue *= size`). */
  function ClampedTranslation(t: real, limits: (real, real), e: real): real {
    Clamp(t, limits.0 * e, limits.1 * e)
  }

  /** For a view of positive extent and ordered limits, the kept translation,
      converted back to unit coordinates, lies within the limits. */
  lemma ClampedTranslationInLimits(t: real, limits: (real, real), e: real)
    requires e > 0.0 && limits.0 <= limits.1
    ensures limits.0 <= ClampedTranslation(t, limits, e) / e <= limits.1
  {
    ClampWithinLimits(t, limits.0, limits.1, e);
  }

  lemma DivideBounds(c: real, lo: real, hi: real, extent: real)
    requires extent > 0.0 && lo * extent <= c <= hi * extent
    ensures lo <= c / extent <= hi
  {
    var q := c / extent;
    assert q * extent == c;
  }

  /** A point moved by `offset` along the drag direction. */
  function Moved(p: Point, isHorizontal: bool, offset: real): (q: Point)
    ensures Coordinate(q, isHorizontal) == Coordinate(p, isHorizontal) + offset
    ensures Coordinate(q, !isHorizontal) == Coordinate(p, !isHorizontal)
  {
    Point(p.x + (if isHorizontal then offset else 0.0), p.y + (if isHorizontal then 0.0 else offset))
  }

  /** Moving a range bound moves exactly one corner point, the dragged one,
      and only along the drag direction: the updated points are again the
      points of the updated ranges. */
  lemma DragMovesOneCorner(corner: Corner, isHorizontal: bool, topOrLeft: ClosedRange, bottomOrRight: ClosedRange,
                           offset: real)
    ensures var ps := PointsFromRange(isHorizontal, topOrLeft, bottomOrRight);
      var (a, b) := RangesAfter(corner, isHorizontal, topOrLeft, bottomOrRight, offset);
      PointsFromRange(isHorizontal, a, b) == ps[corner.RawValue() := Moved(ps[corner.RawValue()], isHorizontal, offset)]
  {
    var ps := PointsFromRange(isHorizontal, topOrLeft, bottomOrRight);
    var (a, b) := RangesAfter(corner, isHorizontal, topOrLeft, bottomOrRight, offset);
    var qs := PointsFromRange(isHorizontal, a, b);
    var ms := ps[corner.RawValue() := Moved(ps[corner.RawValue()], isHorizontal, offset)];
    assert qs[0] == ms[0] && qs[1] == ms[1] && qs[2] == ms[2] && qs[3] == ms[3];
  }

  /** After a drag within the limits, the moved points are those of the
      moved ranges, and the moved ranges are still inside [0, 1]. */
  lemma EndedStateValid(corner: Corner, isHorizontal: bool, topOrLeft: ClosedRange, bottomOrRight: ClosedRange,
                        offset: real)
    requires UnitRanges(topOrLeft, bottomOrRight)
    requires DragLimits(corner, isHorizontal, PointsFromRange(isHorizontal, topOrLeft, bottomOrRight)).0 <= offset
    requires offset <= DragLimits(corner, isHorizontal, PointsFromRange(isHorizontal, topOrLeft, bottomOrRight)).1
    ensures var ps := PointsFromRange(isHorizontal, topOrLeft, bottomOrRight);
      var ranges := RangesAfter(corner, isHorizontal, topOrLeft, bottomOrRight, offset);
      UnitRanges(ranges.0, ranges.1)
      && PointsFromRange(isHorizontal, ranges.0, ranges.1)
         == ps[corner.RawValue() := Moved(ps[corner.RawValue()], isHorizontal, offset)]
  {
    LimitsKeepRangesInUnit(corner, isHorizontal, topOrLeft, bottomOrRight, offset);
    DragMovesOneCorner(corner, isHorizontal, topOrLeft, bottomOrRight, offset);
  }

  /** The control's state: the two bound ranges, the four corner points in
      unit coordinates, the corner being dragged and the current translation
      of the drag in view points. */
  class QuadAngleControl {
    const isHorizontal: bool
    var topOrLeft: ClosedRange
    var bottomOrRight: ClosedRange
    var topLeft: Point
    var topRight: Point
    var bottomLeft: Point
    var bottomRight: Point
    var currentDraggingCorner: Option<Corner>
    var gestureTranslation: real

    function Points(): (ps: seq<Point>)
      reads this
      ensures |ps| == 4
    {
      [topLeft, topRight, bottomLeft, bottomRight]
    }

    /** The corner points are those of the ranges, and the ranges lie in
        [0, 1]. */
    predicate Valid()
      reads this
    {
      Points() == PointsFromRange(isHorizontal, topOrLeft, bottomOrRight)
      && UnitRanges(topOrLeft, bottomOrRight)
    }

    /** The current translation, converted to unit coordinates, respects
        the limits of the dragged corner. */
    predicate TranslationInLimits(size: Size)
      reads this
    {
      Extent(size, isHorizontal) > 0.0
      && (currentDraggingCorner.Some? ==>
            var limits := DragLimits(currentDraggingCorner.value, isHorizontal, Points());
            limits.0 <= gestureTranslation / Extent(size, isHorizontal) <= limits.1)
    }

    constructor (isHorizontal: bool, topOrLeft: ClosedRange, bottomOrRight: ClosedRange)
      requires UnitRanges(topOrLeft, bottomOrRight)
      ensures Valid()
      ensures this.isHorizontal == isHorizontal
      ensures this.topOrLeft == topOrLeft && this.bottomOrRight == bottomOrRight
      ensures currentDraggingCorner.None? && gestureTranslation == 0.0
    {
      this.isHorizontal := isHorizontal;
      this.topOrLeft := topOrLeft;
      this.bottomOrRight := bottomOrRight;
      var points := PointsFromRange(isHorizontal, topOrLeft, bottomOrRight);
      topLeft, topRight, bottomLeft, bottomRight := points[0], points[1], points[2], points[3];
      currentDraggingCorner := None;
      gestureTranslation := 0.0;
    }

    /** The drag gesture's onChanged: pick the corner near the start location
        (normalised by the view size); if there is one, record the
        translation along the drag direction, clamped to that corner's
        limits. Without a corner nothing else changes. */
    method OnDragChanged(startLocation: Point, translation: Size, size: Size)
      requires Valid()
      requires size.width > 0.0 && size.height > 0.0
      modifies this
      ensures Valid()
      ensures topOrLeft == old(topOrLeft) && bottomOrRight == old(bottomOrRight)
      ensures Points() == old(Points())
      ensures currentDraggingCorner ==
        GetCorner(Point(startLocation.x / size.width, startLocation.y / size.height), Points())
      ensures currentDraggingCorner.None? ==> gestureTranslation == old(gestureTranslation)
      ensures currentDraggingCorner.Some? ==>
        gestureTranslation == ClampedTranslation(Extent(translation, isHorizontal),
          DragLimits(currentDraggingCorner.value, isHorizontal, Points()), Extent(size, isHorizontal))
      ensures TranslationInLimits(size)
    {
      var normalizedStartLocation := Point(startLocation.x / size.width, startLocation.y / size.height);
      currentDraggingCorner := GetCorner(normalizedStartLocation, Points());
      if currentDraggingCorner.None? {
        return;
      }
      var corner := currentDraggingCorner.value;
      var limits := DragLimits(corner, isHorizontal, Points());
      assert limits.0 <= limits.1 by {
        LimitsKeepRangesInUnit(corner, isHorizontal, topOrLeft, bottomOrRight, 0.0);
      }
      ClampedTranslationInLimits(Extent(translation, isHorizontal), limits, Extent(size, isHorizontal));
      gestureTranslation := ClampedTranslation(Extent(translation, isHorizontal), limits, Extent(size, isHorizontal));
    }

    /** The drag gesture's onEnded: move the dragged corner by the
        translation in unit coordinates, move the range bound it carries by
        the same amount, and stop dragging. Without a dragged corner nothing
        changes. */
    method OnDragEnded(size: Size)
      requires Valid()
      requires size.width > 0.0 && size.height > 0.0
      requires TranslationInLimits(size)
      modifies this
      ensures Valid()
      ensures currentDraggingCorner.None?
      ensures gestureTranslation == old(gestureTranslation)
      ensures old(currentDraggingCorner).None? ==>
        topOrLeft == old(topOrLeft) && bottomOrRight == old(bottomOrRight)
      ensures old(currentDraggingCorner).Some? ==>
        (topOrLeft, bottomOrRight) ==
          RangesAfter(old(currentDraggingCorner).value, isHorizontal, old(topOrLeft), old(bottomOrRight),
                      gestureTranslation / Extent(size, isHorizontal))
    {
      if currentDraggingCorner.None? {
        return;
      }
      var corner := currentDraggingCorner.value;
      var gestureOffset := gestureTranslation / Extent(size, isHorizontal);
      var (newTopOrLeft, newBottomOrRight) := RangesAfter(corner, isHorizontal, topOrLeft, bottomOrRight, gestureOffset);
      var points := Points();
      // Only the dragged corner moves, along the drag direction.
      var moved := points[corner.RawValue() := Moved(points[corner.RawValue()], isHorizontal, gestureOffset)];
      EndedStateValid(corner, isHorizontal, topOrLeft, bottomOrRight, gestureOffset);
      topLeft, topRight, bottomLeft, bottomRight := moved[0], moved[1], moved[2], moved[3];
      topOrLeft, bottomOrRight := newTopOrLeft, newBottomOrRight;
      currentDraggingCorner := None;
    }
  }

  /** A whole drag in a view of one size: whatever the start location and
      translation, the ranges stay inside [0, 1] with their points on the
      edges, and the drag is over afterwards. */
  method Drag(control: QuadAngleControl, startLocation: Point, translation: Size, size: Size)
    requires control.Valid()
    requires size.width > 0.0 && size.height > 0.0
    modifies control
    ensures control.Valid()
    ensures control.currentDraggingCorner.None?
  {
    control.OnDragChanged(startLocation, translation, size);
    control.OnDragEnded(size);
  }
}
