/**
  Screen geometry of the debug panel. `CGFloat` is modelled as exact `real`:
  the panel only adds, subtracts and compares coordinates.
 */
module Geometry {

  /** A point or a translation in screen coordinates (`CGPoint`). */
  datatype Point = Point(x: real, y: real)

  /** A width and a height (`CGSize`). */
  datatype Size = Size(width: real, height: real)

  /** `CGPoint.zero`, also the identity translation. */
  const Zero := Point(0.0, 0.0)

  /** Distance the end of a drag keeps the panel from every screen edge. */
  const Margin: real := 8.0

  function Min(a: real, b: real): real { if a <= b then a else b }
  function Max(a: real, b: real): real { if a >= b then a else b }

  /**
    `CGRect.maxX` (or `maxY`) along one axis: the largest coordinate the
    rectangle covers. That is the origin itself when the extent is negative.
   */
  function MaxEdge(pos: real, size: real): real {
    if size >= 0.0 then pos + size else pos
  }

  /**
    One axis of the clamp at the end of a drag: `pos` is the panel's origin
    coordinate, `size` its extent along the axis, `extent` the screen's. The
    origin is clamped to the near margin first; then, when the rectangle's
    largest coordinate lies past the far margin, the origin is set so that
    `pos + size` sits on it. The far-edge step runs last, so it always wins.
   */
  function ClampAxis(pos: real, size: real, extent: real): real {
    var nearClamped := if pos < Margin then Margin else pos;
    if MaxEdge(nearClamped, size) > extent - Margin then extent - size - Margin else nearClamped
  }

  /**
    What the clamp guarantees, axis by axis: `pos + size` always ends inside
    the far margin; the origin ends inside the near margin exactly when the
    panel fits between both margins. When it fits and its size is not
    negative, the clamp is the usual one into [Margin, extent - size - Margin];
    with a negative size the far-edge test looks at the origin itself, so an
    origin past the far margin is moved beyond it, to extent - size - Margin.
    A panel too large to fit is pinned at extent - size - Margin wherever it
    was dropped.
   */
  lemma ClampAxisBounds(pos: real, size: real, extent: real)
    ensures ClampAxis(pos, size, extent) + size <= extent - Margin
    ensures ClampAxis(pos, size, extent) >= Margin <==> size + 2.0 * Margin <= extent
    ensures 0.0 <= size && size + 2.0 * Margin <= extent ==>
      ClampAxis(pos, size, extent) == Max(Margin, Min(pos, extent - size - Margin))
    ensures size < 0.0 && size + 2.0 * Margin <= extent ==>
      ClampAxis(pos, size, extent) ==
        (if Max(Margin, pos) > extent - Margin then extent - size - Margin else Max(Margin, pos))
    ensures size + 2.0 * Margin > extent ==> ClampAxis(pos, size, extent) == extent - size - Margin
  {
  }

  /**
    A frame 10 wide with a negative width, dropped at x 45 on a screen 50
    wide: its `maxX` is 45, past the far margin at 42, so its origin moves
    to 52.
   */
  lemma NegativeWidthDrop()
    ensures ClampAxis(45.0, -10.0, 50.0) == 52.0
  {
  }

  /** Both axes of the drag clamp; the axes do not interact. */
  function ClampOrigin(p: Point, panel: Size, screen: Size): Point {
    Point(ClampAxis(p.x, panel.width, screen.width), ClampAxis(p.y, panel.height, screen.height))
  }

  /** Dropping a panel where it already lies does not move it: the clamp is idempotent. */
  lemma ClampOriginIdempotent(p: Point, panel: Size, screen: Size)
    ensures ClampOrigin(ClampOrigin(p, panel, screen), panel, screen) == ClampOrigin(p, panel, screen)
  {
    ClampAxisBounds(p.x, panel.width, screen.width);
    ClampAxisBounds(p.y, panel.height, screen.height);
  }

  /**
    A panel that fits the screen ends every drag with its origin at least
    `Margin` inside the near edges and `origin + size` at least `Margin`
    inside the far edges, whatever the translation was.
   */
  lemma ClampOriginOnScreen(p: Point, panel: Size, screen: Size)
    requires panel.width + 2.0 * Margin <= screen.width
    requires panel.height + 2.0 * Margin <= screen.height
    ensures var q := ClampOrigin(p, panel, screen);
      Margin <= q.x <= screen.width - panel.width - Margin &&
      Margin <= q.y <= screen.height - panel.height - Margin
  {
    ClampAxisBounds(p.x, panel.width, screen.width);
    ClampAxisBounds(p.y, panel.height, screen.height);
  }

  /**
    Height of the panel for `count` buttons in its action stack: one line per
    button, one line for the title, four gaps and the one-point separator.
   */
  function PanelHeight(count: nat, lineHeight: real, gap: real): real {
    (count as real) * lineHeight + 4.0 * gap + lineHeight * 1.0 + 1.0
  }

  /** Each button added to the stack makes the committed panel one line taller. */
  lemma PanelHeightPerButton(count: nat, lineHeight: real, gap: real)
    ensures PanelHeight(count + 1, lineHeight, gap) == PanelHeight(count, lineHeight, gap) + lineHeight
    ensures PanelHeight(0, lineHeight, gap) == lineHeight + 4.0 * gap + 1.0
  {
  }

  /** The default placement: bottom-right corner of the screen, inset by `gap` on both axes. */
  function HomeOrigin(screen: Size, panel: Size, gap: real): (r: Point)
    ensures r.x + panel.width + gap == screen.width
    ensures r.y + panel.height + gap == screen.height
  {
    Point(screen.width - panel.width - gap, screen.height - panel.height - gap)
  }

  /** Origin after a commit: the home placement when still at the zero origin, otherwise the same origin. */
  function CommitOrigin(origin: Point, screen: Size, panel: Size, gap: real): Point {
    if origin == Zero then HomeOrigin(screen, panel, gap) else origin
  }

  /**
    The placement is one-shot: a panel that has left the zero origin is never
    moved by a commit, and committing twice places it where one commit did.
   */
  lemma CommitOriginIdempotent(origin: Point, screen: Size, panel: Size, gap: real)
    ensures origin != Zero ==> CommitOrigin(origin, screen, panel, gap) == origin
    ensures var once := CommitOrigin(origin, screen, panel, gap);
      CommitOrigin(once, screen, panel, gap) == once
  {
  }
}
