/**
 * The integer geometry of the custom-decorated window (forge.view.FFrame):
 * which resize cursor a pointer position selects, the rectangle an edge drag
 * produces, and the dead zone that keeps a maximized window from moving on a
 * tiny title-bar drag.
 */
module WindowGeometry {

  datatype Point = Point(x: int, y: int)
  datatype Size = Size(width: int, height: int)
  datatype Rect = Rect(x: int, y: int, width: int, height: int)

  /** DEFAULT_CURSOR and the eight *_RESIZE_CURSOR values the frame uses. */
  datatype Cursor = Default | N | S | E | W | NE | NW | SE | SW

  /** The drag moves the left edge. */
  predicate IsWestward(c: Cursor) { c == W || c == NW || c == SW }
  /** The drag moves the right edge. */
  predicate IsEastward(c: Cursor) { c == E || c == NE || c == SE }
  /** The drag moves the top edge. */
  predicate IsNorthward(c: Cursor) { c == N || c == NE || c == NW }
  /** The drag moves the bottom edge. */
  predicate IsSouthward(c: Cursor) { c == S || c == SE || c == SW }

  const BORDER_THICKNESS: int := 3
  /** Width of the band along each edge in which the pointer grabs that edge. */
  const GRAB_AREA: int := BORDER_THICKNESS * 2

  // ---------------------------------------------------------------------------
  // Hover: pointer position to resize cursor

  /** Where a coordinate lies along one axis; the low band wins when the bands overlap. */
  datatype Band = Low | Middle | High

  function BandOf(v: int, extent: int): Band {
    if v < GRAB_AREA then Low else if v >= extent - GRAB_AREA then High else Middle
  }

  /** The cursor for a column band and a row band. */
  function ZoneOf(column: Band, row: Band): Cursor {
    match (column, row)
    case (Low, Low) => NW
    case (Low, High) => SW
    case (Low, Middle) => W
    case (High, Low) => NE
    case (High, High) => SE
    case (High, Middle) => E
    case (Middle, Low) => N
    case (Middle, High) => S
    case (Middle, Middle) => Default
  }

  /**
   * The cursor the hover handler selects for a point (px, py) of a window of the
   * given size: the left column is tested before the right one, and within a
   * column the top row before the bottom one, so corners win over edges.
   */
  function CursorZone(px: int, py: int, width: int, height: int): (c: Cursor)
    ensures c == ZoneOf(BandOf(px, width), BandOf(py, height))
    ensures IsWestward(c) <==> px < GRAB_AREA
    ensures IsEastward(c) <==> GRAB_AREA <= px && width - GRAB_AREA <= px
    ensures IsNorthward(c) <==> py < GRAB_AREA
    ensures IsSouthward(c) <==> GRAB_AREA <= py && height - GRAB_AREA <= py
    ensures c == Default <==>
      GRAB_AREA <= px < width - GRAB_AREA && GRAB_AREA <= py < height - GRAB_AREA
  {
    if px < GRAB_AREA then
      if py < GRAB_AREA then NW
      else if py >= height - GRAB_AREA then SW
      else W
    else if px >= width - GRAB_AREA then
      if py < GRAB_AREA then NE
      else if py >= height - GRAB_AREA then SE
      else E
    else if py < GRAB_AREA then N
    else if py >= height - GRAB_AREA then S
    else Default
  }

  // ---------------------------------------------------------------------------
  // Edge drag: the new bounds

  /** Width after the drag, before clamping: the dragged vertical edge follows the pointer. */
  function RawWidth(c: Cursor, width0: int, dx: int): int {
    if IsEastward(c) then width0 + dx else if IsWestward(c) then width0 - dx else width0
  }

  /** Height after the drag, before clamping. */
  function RawHeight(c: Cursor, height0: int, dy: int): int {
    if IsSouthward(c) then height0 + dy else if IsNorthward(c) then height0 - dy else height0
  }

  /** The lower bound is tested first, as in the frame's drag handler. */
  function Clamp(v: int, lo: int, hi: int): int {
    if v < lo then lo else if v > hi then hi else v
  }

  /**
   * The bounds an edge drag is meant to produce: the size follows the pointer,
   * clamped to [minSize, maxSize], and the edges that are not dragged stay
   * where they were.
   */
  function ResizedBounds(c: Cursor, loc: Point, size: Size, dx: int, dy: int, minSize: Size, maxSize: Size): Rect {
    var width := Clamp(RawWidth(c, size.width, dx), minSize.width, maxSize.width);
    var height := Clamp(RawHeight(c, size.height, dy), minSize.height, maxSize.height);
    Rect(if IsWestward(c) then loc.x + size.width - width else loc.x,
         if IsNorthward(c) then loc.y + size.height - height else loc.y,
         width, height)
  }

  /** With minSize <= maxSize the result's size lies within the limits. */
  lemma ResizedWithinLimits(c: Cursor, loc: Point, size: Size, dx: int, dy: int, minSize: Size, maxSize: Size)
    requires minSize.width <= maxSize.width && minSize.height <= maxSize.height
    ensures var r := ResizedBounds(c, loc, size, dx, dy, minSize, maxSize);
      && minSize.width <= r.width <= maxSize.width
      && minSize.height <= r.height <= maxSize.height
  {
  }

  /**
   * The origin moves only along dragged edges, the opposite edges stay fixed,
   * and a drag that needs no clamping moves the dragged edge by the pointer delta.
   */
  lemma ResizedAnchoring(c: Cursor, loc: Point, size: Size, dx: int, dy: int, minSize: Size, maxSize: Size)
    ensures var r := ResizedBounds(c, loc, size, dx, dy, minSize, maxSize);
      && (!IsWestward(c) ==> r.x == loc.x)
      && (!IsNorthward(c) ==> r.y == loc.y)
      && (IsWestward(c) ==> r.x + r.width == loc.x + size.width)
      && (IsNorthward(c) ==> r.y + r.height == loc.y + size.height)
      && (minSize.width <= RawWidth(c, size.width, dx) <= maxSize.width && IsWestward(c) ==> r.x == loc.x + dx)
      && (minSize.height <= RawHeight(c, size.height, dy) <= maxSize.height && IsNorthward(c) ==> r.y == loc.y + dy)
      && (minSize.width <= RawWidth(c, size.width, dx) <= maxSize.width && IsEastward(c) ==>
            r.x + r.width == loc.x + size.width + dx)
      && (minSize.height <= RawHeight(c, size.height, dy) <= maxSize.height && IsSouthward(c) ==>
            r.y + r.height == loc.y + size.height + dy)
  {
  }

  /**
   * The drag handler's computation with its clamping corrected: when the size is
   * clamped, the overshoot is added back to the delta on both the minimum and
   * the maximum side, so the edge opposite the dragged one stays put.
   */
  method ResizeDrag(c: Cursor, loc: Point, size: Size, dx0: int, dy0: int, minSize: Size, maxSize: Size)
    returns (r: Rect)
    ensures r == ResizedBounds(c, loc, size, dx0, dy0, minSize, maxSize)
  {
    var dx, dy := dx0, dy0;
    var width, height := size.width, size.height;
    match c {
      case E => width := width + dx;
      case W => width := width - dx;
      case S => height := height + dy;
      case N => height := height - dy;
      case SE => width := width + dx; height := height + dy;
      case NE => width := width + dx; height := height - dy;
      case SW => width := width - dx; height := height + dy;
      case NW => width := width - dx; height := height - dy;
      case Default =>
    }
    if width < minSize.width {
      dx := dx + (width - minSize.width);
      width := minSize.width;
    } else if width > maxSize.width {
      dx := dx + (width - maxSize.width);
      width := maxSize.width;
    }
    if height < minSize.height {
      dy := dy + (height - minSize.height);
      height := minSize.height;
    } else if height > maxSize.height {
      dy := dy + (height - maxSize.height);
      height := maxSize.height;
    }
    var x, y := loc.x, loc.y;
    match c {
      case W => x := x + dx;
      case SW => x := x + dx;
      case N => y := y + dy;
      case NE => y := y + dy;
      case NW => x := x + dx; y := y + dy;
      case _ =>
    }
    r := Rect(x, y, width, height);
  }

  /**
   * The drag handler's computation as written: the maximum-side branches
   * subtract the overshoot from the delta. The size is still clamped correctly
   * and the minimum side still keeps the opposite edge fixed, but past the
   * maximum a west or north drag shifts the opposite edge by twice the overshoot.
   */
  method ResizeDragAsWritten(c: Cursor, loc: Point, size: Size, dx0: int, dy0: int, minSize: Size, maxSize: Size)
    returns (r: Rect)
    ensures var intended := ResizedBounds(c, loc, size, dx0, dy0, minSize, maxSize);
      && r.width == intended.width && r.height == intended.height
      && (!IsWestward(c) ==> r.x == loc.x)
      && (!IsNorthward(c) ==> r.y == loc.y)
    ensures var raw := RawWidth(c, size.width, dx0);
      IsWestward(c) ==>
        if raw < minSize.width || raw <= maxSize.width then r.x + r.width == loc.x + size.width
        else r.x + r.width == loc.x + size.width - 2 * (raw - maxSize.width)
    ensures var raw := RawHeight(c, size.height, dy0);
      IsNorthward(c) ==>
        if raw < minSize.height || raw <= maxSize.height then r.y + r.height == loc.y + size.height
        else r.y + r.height == loc.y + size.height - 2 * (raw - maxSize.height)
  {
    var dx, dy := dx0, dy0;
    var width, height := size.width, size.height;
    match c {
      case E => width := width + dx;
      case W => width := width - dx;
      case S => height := height + dy;
      case N => height := height - dy;
      case SE => width := width + dx; height := height + dy;
      case NE => width := width + dx; height := height - dy;
      case SW => width := width - dx; height := height + dy;
      case NW => width := width - dx; height := height - dy;
      case Default =>
    }
    if width < minSize.width {
      dx := dx + (width - minSize.width);
      width := minSize.width;
    } else if width > maxSize.width {
      dx := dx - (width - maxSize.width);
      width := maxSize.width;
    }
    if height < minSize.height {
      dy := dy + (height - minSize.height);
      height := minSize.height;
    } else if height > maxSize.height {
      dy := dy - (height - maxSize.height);
      height := maxSize.height;
    }
    var x, y := loc.x, loc.y;
    match c {
      case W => x := x + dx;
      case SW => x := x + dx;
      case N => y := y + dy;
      case NE => y := y + dy;
      case NW => x := x + dx; y := y + dy;
      case _ =>
    }
    r := Rect(x, y, width, height);
  }

  /**
   * A window 100 wide with a maximum width of 100, dragged 10 pixels left by its
   * west edge: the width stays 100 but the window jumps 20 pixels left, so its
   * right edge moves from 100 to 80; the corrected computation leaves it at 100.
   */
  method WestDragPastMaximum() returns (asWritten: Rect, corrected: Rect)
    ensures asWritten == Rect(-20, 0, 100, 100) && asWritten.x + asWritten.width == 80
    ensures corrected == Rect(0, 0, 100, 100) && corrected.x + corrected.width == 100
  {
    asWritten := ResizeDragAsWritten(W, Point(0, 0), Size(100, 100), -10, 0, Size(10, 10), Size(100, 100));
    corrected := ResizeDrag(W, Point(0, 0), Size(100, 100), -10, 0, Size(10, 10), Size(100, 100));
  }

  /** Dragging the top-left corner by (-10, -5) grows the window by (10, 5) and moves its origin by (-10, -5). */
  method NorthWestDragExample() returns (r: Rect)
    ensures r == Rect(90, 95, 810, 605)
  {
    r := ResizeDrag(NW, Point(100, 100), Size(800, 600), -10, -5, Size(100, 100), Size(2000, 2000));
  }

  // ---------------------------------------------------------------------------
  // Title-bar move dead zone (Java int arithmetic)

  const TWO_POW_31: int := 0x8000_0000
  const TWO_POW_32: int := 0x1_0000_0000

  /** A value reduced to Java's 32-bit int range, as int arithmetic wraps around. */
  function Wrap32(v: int): (r: int)
    ensures -TWO_POW_31 <= r < TWO_POW_31
    ensures -TWO_POW_31 <= v < TWO_POW_31 ==> r == v
  {
    (v + TWO_POW_31) % TWO_POW_32 - TWO_POW_31
  }

  /** dx * dx + dy * dy evaluated in int arithmetic. */
  function SquaredDistance32(dx: int, dy: int): int {
    Wrap32(Wrap32(dx * dx) + Wrap32(dy * dy))
  }

  /** The pointer has moved less than 5 pixels (squared distance below 25). */
  predicate InDeadZone(dx: int, dy: int) {
    SquaredDistance32(dx, dy) < 25
  }

  lemma SquareBound(d: int)
    requires -32767 <= d <= 32767
    ensures 0 <= d * d <= 32767 * 32767
  {
    MulNonnegative(32767 - d, 32767 + d);
    SquareDifference(d);
    MulNonnegative(if d < 0 then -d else d, if d < 0 then -d else d);
    assert d * d == (if d < 0 then -d else d) * (if d < 0 then -d else d);
  }

  lemma MulNonnegative(a: int, b: int)
    requires 0 <= a && 0 <= b
    ensures 0 <= a * b
  {
  }

  lemma SquareDifference(d: int)
    ensures (32767 - d) * (32767 + d) == 32767 * 32767 - d * d
  {
  }

  /**
   * For deltas a screen can produce (at most 32767 pixels each way) the int
   * computation is exact: the dead zone is the open disc of radius 5.
   */
  lemma DeadZoneExact(dx: int, dy: int)
    requires -32767 <= dx <= 32767 && -32767 <= dy <= 32767
    ensures InDeadZone(dx, dy) <==> dx * dx + dy * dy < 25
  {
    SquareBound(dx);
    SquareBound(dy);
  }

  /** Past 46340 pixels the square overflows: a delta of 46341 pixels counts as inside the dead zone. */
  lemma DeadZoneOverflow()
    ensures InDeadZone(46341, 0)
    ensures 46341 * 46341 >= 25
  {
  }
}
