/**
 * The frame drawers of the renderer (lib/canvas-utils.ts, `drawFrame` and
 * the functions it dispatches to). Each drawer is a method on the context
 * proved against a function that gives the context state it leaves; the
 * geometry shared with the logo is stated and checked here: the rectangular
 * frames cut a rounded notch around the logo anchor, and no frame stroke
 * reaches the logo image.
 */
module Frames {
  import opened Draw
  import opened Layout
  import opened Templates

  // ---------------------------------------------------------------------------
  // Geometry

  /** The path of `drawFrameWithLogoCutout`: the rectangle inset by `margin`,
      with its bottom-right corner replaced by a notch that goes round the
      logo, each turn of the notch rounded by a quadratic curve of radius 20. */
  function CutoutPath(w: real, h: real, margin: real, logo: LogoSpot): (p: seq<PathOp>)
    ensures |p| == 10
    ensures p[0] == MoveTo(Point(margin, margin)) && p[9] == LineTo(Point(margin, margin))
  {
    var left := margin;
    var top := margin;
    var right := w - margin;
    var bottom := h - margin;
    var cutoutSize := logo.radius + 10.0;
    var sx := logo.x - cutoutSize;
    var sy := logo.y - cutoutSize;
    var curve := 20.0;
    [ MoveTo(Point(left, top)),
      LineTo(Point(right, top)),
      LineTo(Point(right, sy - curve)),
      QuadTo(Point(right, sy), Point(right - curve, sy)),
      LineTo(Point(sx + curve, sy)),
      QuadTo(Point(sx, sy), Point(sx, sy + curve)),
      LineTo(Point(sx, bottom - curve)),
      QuadTo(Point(sx, bottom), Point(sx - curve, bottom)),
      LineTo(Point(left, bottom)),
      LineTo(Point(left, top)) ]
  }

  /** The corner of the notch: the control point of its middle curve. */
  function Notch(w: real, h: real, margin: real): Point {
    CutoutPath(w, h, margin, LogoPosition(w, h))[5].control
  }

  /** The notch is anchored on the logo: its corner is `radius + 10` up and
      left of the logo centre, at `(w - 155, h - 135)`. With any margin up to
      95 on a canvas of at least 400 by 400 (the frames use 50, 60, 70 and
      85) it lies strictly inside the frame rectangle, and every straight
      piece of the path runs forward, so the path has no fold. */
  lemma NotchInside(w: real, h: real, margin: real)
    requires w >= 400.0 && h >= 400.0 && 0.0 < margin <= 95.0
    ensures var logo := LogoPosition(w, h); var n := Notch(w, h, margin);
      n == Point(logo.x - (logo.radius + 10.0), logo.y - (logo.radius + 10.0)) &&
      n == Point(w - 155.0, h - 135.0)
    ensures var n := Notch(w, h, margin);
      margin < n.x < w - margin && margin < n.y < h - margin
    ensures var p := CutoutPath(w, h, margin, LogoPosition(w, h));
      p[1].p.y <= p[2].p.y && p[3].p.x >= p[4].p.x && p[5].p.y <= p[6].p.y && p[7].p.x >= p[8].p.x
  {
  }

  /** An axis-aligned box. */
  datatype Box = Box(x0: real, y0: real, x1: real, y1: real)

  /** The box grown by `d` on every side. */
  function Inflate(b: Box, d: real): Box {
    Box(b.x0 - d, b.y0 - d, b.x1 + d, b.y1 + d)
  }

  /** Where the logo image is drawn: a square of `LOGO_CONFIG.size` centred on
      the logo anchor. */
  function LogoBox(w: real, h: real): (b: Box)
    ensures b == Box(w - 130.0, h - 110.0, w - 50.0, h - 30.0)
  {
    var logo := LogoPosition(w, h);
    Box(logo.x - logo.size / 2.0, logo.y - logo.size / 2.0, logo.x + logo.size / 2.0, logo.y + logo.size / 2.0)
  }

  /** All points strictly on one side of a line that has the whole box on
      its other side (one of its four edges, or the diagonal through its
      top-left corner): then so is their convex hull. */
  predicate Apart(pts: seq<Point>, b: Box) {
    (forall i :: 0 <= i < |pts| ==> pts[i].x < b.x0) || (forall i :: 0 <= i < |pts| ==> pts[i].x > b.x1) ||
    (forall i :: 0 <= i < |pts| ==> pts[i].y < b.y0) || (forall i :: 0 <= i < |pts| ==> pts[i].y > b.y1) ||
    (forall i :: 0 <= i < |pts| ==> pts[i].x + pts[i].y < b.x0 + b.y0)
  }

  /** The point where a path operation leaves the pen. */
  function EndOf(path: seq<PathOp>, k: nat): Point
    requires k < |path|
  {
    match path[k]
    case MoveTo(p) => p
    case LineTo(p) => p
    case QuadTo(_, p) => p
    case Circle(c, r) => Point(c.x + r, c.y)
    case ClosePath => if path[0].MoveTo? then path[0].p else Point(0.0, 0.0)
  }

  /** The points whose convex hull holds the piece of the path that
      operation `k` draws: the previous pen position, any control point and
      the new pen position; for a full circle, the corners of its bounding
      square. */
  function Hull(path: seq<PathOp>, k: nat): seq<Point>
    requires k < |path|
  {
    match path[k]
    case MoveTo(p) => []
    case LineTo(p) => if k == 0 then [p] else [EndOf(path, k - 1), p]
    case QuadTo(c, p) => if k == 0 then [c, p] else [EndOf(path, k - 1), c, p]
    case Circle(c, r) => [Point(c.x - r, c.y - r), Point(c.x + r, c.y + r)]
    case ClosePath => if k == 0 then [] else [EndOf(path, k - 1), EndOf(path, 0)]
  }

  /** The squared distance from a point to the nearest point of a box. */
  function DistanceSquared(p: Point, b: Box): real {
    var dx := if p.x < b.x0 then b.x0 - p.x else if p.x > b.x1 then p.x - b.x1 else 0.0;
    var dy := if p.y < b.y0 then b.y0 - p.y else if p.y > b.y1 then p.y - b.y1 else 0.0;
    dx * dx + dy * dy
  }

  /** The piece drawn by operation `k`, widened by `pad`, misses the box. */
  predicate OpApart(path: seq<PathOp>, k: nat, b: Box, pad: real)
    requires k < |path|
  {
    Apart(Hull(path, k), Inflate(b, pad)) ||
    (path[k].Circle? && path[k].radius + pad >= 0.0 &&
     DistanceSquared(path[k].center, b) > (path[k].radius + pad) * (path[k].radius + pad))
  }

  /** Every piece of the path, widened by `pad`, misses the box. */
  predicate PathApart(path: seq<PathOp>, b: Box, pad: real) {
    forall k :: 0 <= k < |path| ==> OpApart(path, k, b, pad)
  }

  /** A frame command leaves the box untouched: a stroke with half its line
      width around the path, a fill inside its path, a rectangle fill. */
  predicate CmdApart(cmd: DrawCmd, b: Box) {
    match cmd
    case Stroke(style, path) => PathApart(path, b, style.lineWidth / 2.0)
    case Fill(_, path) => PathApart(path, b, 0.0)
    case FillRect(_, x, y, w, h) => x + w < b.x0 || x > b.x1 || y + h < b.y0 || y > b.y1
    case _ => false
  }

  /** The three strokes of a corner decoration at `(x, y)`: the `translate`
      and the flips of the source applied to its points. */
  function CornerPath(x: real, y: real, size: real, flipH: bool, flipV: bool): seq<PathOp> {
    var sx := if flipH then -1.0 else 1.0;
    var sy := if flipV then -1.0 else 1.0;
    [MoveTo(Point(x, y + sy * size)), LineTo(Point(x, y)), LineTo(Point(x + sx * size, y))]
  }

  /** The sacred-geometry diamond: four vertices 380 from the centre, closed. */
  function DiamondPath(cx: real, cy: real): seq<PathOp> {
    [MoveTo(Point(cx, cy - 380.0)), LineTo(Point(cx + 380.0, cy)), LineTo(Point(cx, cy + 380.0)),
     LineTo(Point(cx - 380.0, cy)), PathOp.ClosePath]
  }

  const EvangileStops: seq<ColorStop> := [
    ColorStop(0.0, "rgba(0, 0, 0, 0)"), ColorStop(0.2, "rgba(10, 8, 5, 0.5)"),
    ColorStop(0.5, "rgba(15, 12, 8, 0.8)"), ColorStop(1.0, "rgba(10, 8, 5, 0.95)")]

  // ---------------------------------------------------------------------------
  // The drawers as functions of the context state

  function CircularOn(c: Canvas, w: real, h: real): Canvas {
    var c1 := Stroked(c, [Circle(Point(w / 2.0, h / 2.0), 400.0)]);
    Stroked(WithStyle(c1, c1.style.(lineWidth := 4.0)), [Circle(Point(w / 2.0, h / 2.0), 420.0)])
  }

  function CutoutOn(c: Canvas, w: real, h: real, margin: real, logo: LogoSpot, frameColor: string): Canvas {
    Stroked(WithStyle(c, c.style.(stroke := frameColor)), CutoutPath(w, h, margin, logo))
  }

  function GeometricOn(c: Canvas, w: real, h: real, frameColor: string): Canvas {
    var margin := 60.0;
    var c1 := CutoutOn(c, w, h, margin, LogoPosition(w, h), frameColor);
    var c2 := WithStyle(c1, c1.style.(lineWidth := 6.0));
    var c3 := Stroked(c2, CornerPath(margin, margin, 40.0, false, false));
    var c4 := Stroked(c3, CornerPath(w - margin, margin, 40.0, true, false));
    Stroked(c4, CornerPath(margin, h - margin, 40.0, false, true))
  }

  /** One ornate corner dot: drawn between `save` and `restore`, so the fill
      colour it sets does not outlive it. */
  function DotOn(c: Canvas, at: Point, frameColor: string): Canvas {
    Filled(WithStyle(c, c.style.(fill := Css(frameColor))), [Circle(at, 8.0)]).(style := c.style)
  }

  /** The dots drawn one after the other; the style is the same afterwards. */
  function DotsOn(c: Canvas, positions: seq<Point>, frameColor: string): (r: Canvas)
    ensures r.style == c.style && r.saved == c.saved
    ensures |r.log| == |c.log| + |positions| && c.log <= r.log
    ensures forall k :: 0 <= k < |positions| ==>
      r.log[|c.log| + k] == Fill(c.style.(fill := Css(frameColor)), [Circle(positions[k], 8.0)])
    decreases |positions|
  {
    if positions == [] then c
    else DotsOn(DotOn(c, positions[0], frameColor), positions[1..], frameColor)
  }

  function OrnateCorners(w: real, h: real): seq<Point> {
    [Point(50.0, 50.0), Point(w - 50.0, 50.0), Point(50.0, h - 50.0)]
  }

  function OrnateOn(c: Canvas, w: real, h: real, frameColor: string): Canvas {
    var logo := LogoPosition(w, h);
    var c1 := CutoutOn(WithStyle(c, c.style.(lineWidth := 10.0)), w, h, 50.0, logo, frameColor);
    var c2 := CutoutOn(WithStyle(c1, c1.style.(lineWidth := 4.0)), w, h, 70.0, logo, frameColor);
    DotsOn(c2, OrnateCorners(w, h), frameColor)
  }

  function SacredOn(c: Canvas, w: real, h: real): Canvas {
    Stroked(WithStyle(c, c.style.(lineWidth := 6.0)), DiamondPath(w / 2.0, h / 2.0))
  }

  /** The elegant frame reads its colour back from the stroke style. */
  function ElegantOn(c: Canvas, w: real, h: real): Canvas {
    var logo := LogoPosition(w, h);
    var frameColor := c.style.stroke;
    var c1 := CutoutOn(WithStyle(c, c.style.(lineWidth := 6.0)), w, h, 70.0, logo, frameColor);
    var c2 := CutoutOn(WithStyle(c1, c1.style.(lineWidth := 2.0, alpha := 0.6)), w, h, 85.0, logo, frameColor);
    WithStyle(c2, c2.style.(alpha := 1.0))
  }

  function RegardCielFrameOn(c: Canvas, w: real, h: real): Canvas {
    var bannerY := h - 100.0;
    var c1 := RectFilled(WithStyle(c, c.style.(fill := Css("#2d6a4f"))), 0.0, bannerY, w, 100.0);
    var c2 := WithStyle(c1, c1.style.(fill := Css("#ffd60a"), font := Font("italic bold", 52, Plain("Playfair Display, serif")),
                                      align := "center", baseline := "middle"));
    Written(c2, "#UnRegardAuCiel", w / 2.0, bannerY + 50.0)
  }

  function EvangileFrameOn(c: Canvas, w: real, h: real, f: FrameStyle): Canvas {
    var start := BannerStart(h, f == EvangileNarratif, f == EvangileVerset);
    RectFilled(WithStyle(c, c.style.(fill := LinearGradient(Point(0.0, start), Point(0.0, h), EvangileStops))),
               0.0, start, w, h - start)
  }

  /** `drawFrame`: stroke colour and width 8, then the drawer of the style;
      any style not named falls to the elegant frame. */
  function FrameOn(c: Canvas, f: FrameStyle, w: real, h: real, frameColor: string): (r: Canvas)
    ensures c.log <= r.log
    ensures r.saved == c.saved
  {
    var c1 := WithStyle(c, c.style.(stroke := frameColor, lineWidth := 8.0));
    match f
    case Circular => CircularOn(c1, w, h)
    case Geometric => GeometricOn(c1, w, h, frameColor)
    case Ornate => OrnateOn(c1, w, h, frameColor)
    case GeometricSacred => SacredOn(c1, w, h)
    case RegardCiel => RegardCielFrameOn(c1, w, h)
    case RegardCielNom => RegardCielFrameOn(c1, w, h)
    case RegardCielCitation => RegardCielFrameOn(c1, w, h)
    case EvangileSimple => EvangileFrameOn(c1, w, h, f)
    case EvangileVerset => EvangileFrameOn(c1, w, h, f)
    case EvangileNarratif => EvangileFrameOn(c1, w, h, f)
    case _ => ElegantOn(c1, w, h)
  }

  // ---------------------------------------------------------------------------
  // The frames keep clear of the logo

  /** The notched rectangle, stroked up to 10 wide, never reaches the logo
      image, whatever the canvas size from 400 on and for every margin up to
      95. */
  lemma CutoutClearsLogo(w: real, h: real, margin: real, pad: real)
    requires w >= 400.0 && h >= 400.0 && 0.0 < margin <= 95.0 && 0.0 <= pad <= 5.0
    ensures PathApart(CutoutPath(w, h, margin, LogoPosition(w, h)), LogoBox(w, h), pad)
  {
    var p := CutoutPath(w, h, margin, LogoPosition(w, h));
    var b := Inflate(LogoBox(w, h), pad);
    CutoutSidesApart(w, h, margin, pad);
    CutoutNotchApart(w, h, margin, pad);
    assert Apart(Hull(p, 0), b);
  }

  /** The top, right, bottom and left runs of the notched rectangle. */
  lemma CutoutSidesApart(w: real, h: real, margin: real, pad: real)
    requires w >= 400.0 && h >= 400.0 && 0.0 < margin <= 95.0 && 0.0 <= pad <= 5.0
    ensures var p := CutoutPath(w, h, margin, LogoPosition(w, h)); var b := Inflate(LogoBox(w, h), pad);
      Apart(Hull(p, 1), b) && Apart(Hull(p, 2), b) && Apart(Hull(p, 8), b) && Apart(Hull(p, 9), b)
  {
    var p := CutoutPath(w, h, margin, LogoPosition(w, h));
    var b := Inflate(LogoBox(w, h), pad);
    assert b == Box(w - 130.0 - pad, h - 110.0 - pad, w - 50.0 + pad, h - 30.0 + pad);
    assert Hull(p, 1) == [Point(margin, margin), Point(w - margin, margin)];
    assert Hull(p, 2) == [Point(w - margin, margin), Point(w - margin, h - 155.0)];
    assert Hull(p, 8) == [Point(w - 175.0, h - margin), Point(margin, h - margin)];
    assert Hull(p, 9) == [Point(margin, h - margin), Point(margin, margin)];
  }

  /** The five pieces of the notch round the logo. */
  lemma CutoutNotchApart(w: real, h: real, margin: real, pad: real)
    requires w >= 400.0 && h >= 400.0 && 0.0 < margin <= 95.0 && 0.0 <= pad <= 5.0
    ensures var p := CutoutPath(w, h, margin, LogoPosition(w, h)); var b := Inflate(LogoBox(w, h), pad);
      Apart(Hull(p, 3), b) && Apart(Hull(p, 4), b) && Apart(Hull(p, 5), b) && Apart(Hull(p, 6), b) && Apart(Hull(p, 7), b)
  {
    var p := CutoutPath(w, h, margin, LogoPosition(w, h));
    var b := Inflate(LogoBox(w, h), pad);
    assert b == Box(w - 130.0 - pad, h - 110.0 - pad, w - 50.0 + pad, h - 30.0 + pad);
    assert Hull(p, 3) == [Point(w - margin, h - 155.0), Point(w - margin, h - 135.0), Point(w - margin - 20.0, h - 135.0)];
    assert Hull(p, 4) == [Point(w - margin - 20.0, h - 135.0), Point(w - 135.0, h - 135.0)];
    assert Hull(p, 5) == [Point(w - 135.0, h - 135.0), Point(w - 155.0, h - 135.0), Point(w - 155.0, h - 115.0)];
    assert Hull(p, 6) == [Point(w - 155.0, h - 115.0), Point(w - 155.0, h - margin - 20.0)];
    assert Hull(p, 7) == [Point(w - 155.0, h - margin - 20.0), Point(w - 155.0, h - margin), Point(w - 175.0, h - margin)];
  }

  /** Every command a drawer appended, from `c` to `r`, misses the box. */
  predicate AppendedApart(c: Canvas, r: Canvas, b: Box)
    requires c.log <= r.log
  {
    forall k :: |c.log| <= k < |r.log| ==> CmdApart(r.log[k], b)
  }

  lemma CircularClearsLogo(c: Canvas)
    requires c.style.lineWidth == 8.0
    ensures var r := CircularOn(c, CanvasSize, CanvasSize);
      c.log <= r.log && AppendedApart(c, r, LogoBox(CanvasSize, CanvasSize))
  {
    var r := CircularOn(c, CanvasSize, CanvasSize);
    var b := LogoBox(CanvasSize, CanvasSize);
    assert r.log[|c.log|..] == [Stroke(c.style, [Circle(Point(512.0, 512.0), 400.0)]),
                                Stroke(c.style.(lineWidth := 4.0), [Circle(Point(512.0, 512.0), 420.0)])];
    assert DistanceSquared(Point(512.0, 512.0), b) == 307528.0;
    assert CmdApart(r.log[|c.log|], b);
    assert CmdApart(r.log[|c.log| + 1], b);
  }

  /** The three corner decorations of the geometric frame, stroked 6 wide. */
  lemma CornersClearLogo()
    ensures PathApart(CornerPath(60.0, 60.0, 40.0, false, false), LogoBox(CanvasSize, CanvasSize), 3.0)
    ensures PathApart(CornerPath(CanvasSize - 60.0, 60.0, 40.0, true, false), LogoBox(CanvasSize, CanvasSize), 3.0)
    ensures PathApart(CornerPath(60.0, CanvasSize - 60.0, 40.0, false, true), LogoBox(CanvasSize, CanvasSize), 3.0)
  {
    var b := Inflate(LogoBox(CanvasSize, CanvasSize), 3.0);
    var q1 := CornerPath(60.0, 60.0, 40.0, false, false);
    var q2 := CornerPath(CanvasSize - 60.0, 60.0, 40.0, true, false);
    var q3 := CornerPath(60.0, CanvasSize - 60.0, 40.0, false, true);
    assert Apart(Hull(q1, 1), b) && Apart(Hull(q1, 2), b);
    assert Apart(Hull(q2, 1), b) && Apart(Hull(q2, 2), b);
    assert Apart(Hull(q3, 1), b) && Apart(Hull(q3, 2), b);
  }

  lemma GeometricClearsLogo(c: Canvas, frameColor: string)
    requires c.style.lineWidth == 8.0
    ensures var r := GeometricOn(c, CanvasSize, CanvasSize, frameColor);
      c.log <= r.log && |r.log| == |c.log| + 4 && AppendedApart(c, r, LogoBox(CanvasSize, CanvasSize))
  {
    var w := CanvasSize;
    var b := LogoBox(w, w);
    var r := GeometricOn(c, w, w, frameColor);
    var s1 := c.style.(stroke := frameColor);
    var s2 := s1.(lineWidth := 6.0);
    var n := |c.log|;
    assert r.log == c.log + [Stroke(s1, CutoutPath(w, w, 60.0, LogoPosition(w, w)))]
      + [Stroke(s2, CornerPath(60.0, 60.0, 40.0, false, false))]
      + [Stroke(s2, CornerPath(w - 60.0, 60.0, 40.0, true, false))]
      + [Stroke(s2, CornerPath(60.0, w - 60.0, 40.0, false, true))];
    CutoutClearsLogo(w, w, 60.0, 4.0);
    CornersClearLogo();
    assert CmdApart(r.log[n], b);
    assert CmdApart(r.log[n + 1], b);
    assert CmdApart(r.log[n + 2], b);
    assert CmdApart(r.log[n + 3], b);
  }

  lemma OrnateClearsLogo(c: Canvas, frameColor: string)
    ensures var r := OrnateOn(c, CanvasSize, CanvasSize, frameColor);
      c.log <= r.log && |r.log| == |c.log| + 5 && AppendedApart(c, r, LogoBox(CanvasSize, CanvasSize))
  {
    var w := CanvasSize;
    var b := LogoBox(w, w);
    var logo := LogoPosition(w, w);
    var c1 := CutoutOn(WithStyle(c, c.style.(lineWidth := 10.0)), w, w, 50.0, logo, frameColor);
    var c2 := CutoutOn(WithStyle(c1, c1.style.(lineWidth := 4.0)), w, w, 70.0, logo, frameColor);
    var r := OrnateOn(c, w, w, frameColor);
    assert r == DotsOn(c2, OrnateCorners(w, w), frameColor);
    CutoutClearsLogo(w, w, 50.0, 5.0);
    CutoutClearsLogo(w, w, 70.0, 2.0);
    assert CmdApart(c2.log[|c.log|], b);
    assert CmdApart(c2.log[|c.log| + 1], b);
    DotsClearLogo(c2, frameColor);
  }

  /** The three corner dots of the ornate frame miss the logo image. */
  lemma DotsClearLogo(c: Canvas, frameColor: string)
    ensures var r := DotsOn(c, OrnateCorners(CanvasSize, CanvasSize), frameColor);
      AppendedApart(c, r, LogoBox(CanvasSize, CanvasSize))
  {
    var b := LogoBox(CanvasSize, CanvasSize);
    var dots := OrnateCorners(CanvasSize, CanvasSize);
    var r := DotsOn(c, dots, frameColor);
    forall k | |c.log| <= k < |r.log|
      ensures CmdApart(r.log[k], b)
    {
      var j := k - |c.log|;
      assert Apart(Hull([Circle(dots[j], 8.0)], 0), b);
    }
  }

  lemma SacredClearsLogo(c: Canvas)
    ensures var r := SacredOn(c, CanvasSize, CanvasSize);
      c.log <= r.log && AppendedApart(c, r, LogoBox(CanvasSize, CanvasSize))
  {
    var d := DiamondPath(512.0, 512.0);
    var b := Inflate(LogoBox(CanvasSize, CanvasSize), 3.0);
    assert Apart(Hull(d, 1), b) && Apart(Hull(d, 2), b) && Apart(Hull(d, 3), b) && Apart(Hull(d, 4), b);
  }

  lemma ElegantClearsLogo(c: Canvas)
    ensures var r := ElegantOn(c, CanvasSize, CanvasSize);
      c.log <= r.log && |r.log| == |c.log| + 2 && AppendedApart(c, r, LogoBox(CanvasSize, CanvasSize))
  {
    var w := CanvasSize;
    CutoutClearsLogo(w, w, 70.0, 3.0);
    CutoutClearsLogo(w, w, 85.0, 1.0);
  }

  /** The frames the logo sits on (every style but the banner styles, which
      draw a banner under it) keep every stroke and dot off the logo image on
      the 1024 canvas; any style not named falls to the elegant frame. */
  lemma FrameClearsLogo(c: Canvas, f: FrameStyle, frameColor: string)
    requires !(f.RegardCiel? || f.RegardCielNom? || f.RegardCielCitation?)
    requires !(f.EvangileSimple? || f.EvangileVerset? || f.EvangileNarratif?)
    ensures var r := FrameOn(c, f, CanvasSize, CanvasSize, frameColor);
      AppendedApart(c, r, LogoBox(CanvasSize, CanvasSize))
  {
    var c1 := WithStyle(c, c.style.(stroke := frameColor, lineWidth := 8.0));
    match f
    case Circular => CircularClearsLogo(c1);
    case Geometric => GeometricClearsLogo(c1, frameColor);
    case Ornate => OrnateClearsLogo(c1, frameColor);
    case GeometricSacred => SacredClearsLogo(c1);
    case Elegant => ElegantClearsLogo(c1);
    case Unlisted(_) => ElegantClearsLogo(c1);
  }

  /** A tag the dispatcher does not name draws exactly the elegant frame. */
  lemma UnlistedIsElegant(c: Canvas, tag: string, w: real, h: real, frameColor: string)
    ensures FrameOn(c, Unlisted(tag), w, h, frameColor) == FrameOn(c, Elegant, w, h, frameColor)
  {
  }

  /** Dots drawn one by one: drawing one more dot extends the sequence. */
  lemma {:induction false} DotsOnSnoc(c: Canvas, positions: seq<Point>, p: Point, frameColor: string)
    ensures DotsOn(c, positions + [p], frameColor) == DotOn(DotsOn(c, positions, frameColor), p, frameColor)
    decreases |positions|
  {
    if positions == [] {
      assert [] + [p] == [p];
    } else {
      assert (positions + [p])[1..] == positions[1..] + [p];
      DotsOnSnoc(DotOn(c, positions[0], frameColor), positions[1..], p, frameColor);
    }
  }

  // ---------------------------------------------------------------------------
  // The drawers on the context

  /** `drawCircularFrame`: two concentric circles of radius 400 and 420. */
  method DrawCircularFrame(ctx: Context)
    modifies ctx
    ensures ctx.State() == CircularOn(old(ctx.State()), ctx.width, ctx.height)
  {
    ctx.BeginPath();
    ctx.Arc(ctx.width / 2.0, ctx.height / 2.0, 400.0);
    assert ctx.path == [Circle(Point(ctx.width / 2.0, ctx.height / 2.0), 400.0)];
    ctx.Stroke();
    ctx.style := ctx.style.(lineWidth := 4.0);
    ctx.BeginPath();
    ctx.Arc(ctx.width / 2.0, ctx.height / 2.0, 420.0);
    assert ctx.path == [Circle(Point(ctx.width / 2.0, ctx.height / 2.0), 420.0)];
    ctx.Stroke();
  }

  /** `drawFrameWithLogoCutout(ctx, canvas, margin, logo, frameColor)`. */
  method DrawFrameWithLogoCutout(ctx: Context, margin: real, logo: LogoSpot, frameColor: string)
    modifies ctx
    ensures ctx.State() == CutoutOn(old(ctx.State()), ctx.width, ctx.height, margin, logo, frameColor)
  {
    var left := margin;
    var top := margin;
    var right := ctx.width - margin;
    var bottom := ctx.height - margin;
    var cutoutSize := logo.radius + 10.0;
    var cutoutStartX := logo.x - cutoutSize;
    var cutoutStartY := logo.y - cutoutSize;
    var curveRadius := 20.0;
    ctx.style := ctx.style.(stroke := frameColor);
    ghost var c0 := ctx.State();
    ctx.BeginPath();
    ctx.MoveTo(left, top);
    ctx.LineTo(right, top);
    ctx.LineTo(right, cutoutStartY - curveRadius);
    ctx.QuadraticCurveTo(right, cutoutStartY, right - curveRadius, cutoutStartY);
    ctx.LineTo(cutoutStartX + curveRadius, cutoutStartY);
    assert ctx.State() == c0.(path := CutoutPath(ctx.width, ctx.height, margin, logo)[..5]);
    ctx.QuadraticCurveTo(cutoutStartX, cutoutStartY, cutoutStartX, cutoutStartY + curveRadius);
    ctx.LineTo(cutoutStartX, bottom - curveRadius);
    ctx.QuadraticCurveTo(cutoutStartX, bottom, cutoutStartX - curveRadius, bottom);
    ctx.LineTo(left, bottom);
    ctx.LineTo(left, top);
    assert ctx.path == CutoutPath(ctx.width, ctx.height, margin, logo);
    ctx.Stroke();
  }

  /** `drawCornerDecoration(ctx, x, y, size, flipH, flipV)`: the translation and
      flips are applied to the points, between `save` and `restore`. */
  method DrawCornerDecoration(ctx: Context, x: real, y: real, size: real, flipH: bool, flipV: bool)
    modifies ctx
    ensures ctx.State() == Stroked(old(ctx.State()), CornerPath(x, y, size, flipH, flipV))
  {
    ghost var c0 := ctx.State();
    var sx := if flipH then -1.0 else 1.0;
    var sy := if flipV then -1.0 else 1.0;
    ctx.Save();
    ctx.BeginPath();
    ctx.MoveTo(x, y + sy * size);
    ctx.LineTo(x, y);
    ctx.LineTo(x + sx * size, y);
    assert ctx.path == CornerPath(x, y, size, flipH, flipV);
    ctx.Stroke();
    assert ctx.State() == Stroked(Saved(c0), CornerPath(x, y, size, flipH, flipV));
    ctx.Restore();
    SavedScope(c0, CornerPath(x, y, size, flipH, flipV));
  }

  /** `drawGeometricFrame`: the notched rectangle at margin 60 and three
      corner decorations; the bottom-right one is left out for the logo. */
  method DrawGeometricFrame(ctx: Context, frameColor: string)
    modifies ctx
    ensures ctx.State() == GeometricOn(old(ctx.State()), ctx.width, ctx.height, frameColor)
  {
    var margin := 60.0;
    var logo := LogoPosition(ctx.width, ctx.height);
    DrawFrameWithLogoCutout(ctx, margin, logo, frameColor);
    var cornerSize := 40.0;
    ctx.style := ctx.style.(lineWidth := 6.0);
    DrawCornerDecoration(ctx, margin, margin, cornerSize, false, false);
    DrawCornerDecoration(ctx, ctx.width - margin, margin, cornerSize, true, false);
    DrawCornerDecoration(ctx, margin, ctx.height - margin, cornerSize, false, true);
  }

  /** The body of the corner loop of `drawOrnateFrame`: a filled dot of
      radius 8, between `save` and `restore`. */
  method DrawOrnateDot(ctx: Context, pos: Point, frameColor: string)
    modifies ctx
    ensures ctx.State() == DotOn(old(ctx.State()), pos, frameColor)
  {
    ghost var before := ctx.State();
    ctx.Save();
    ctx.style := ctx.style.(fill := Css(frameColor));
    ctx.BeginPath();
    ctx.Arc(pos.x, pos.y, 8.0);
    assert ctx.path == [Circle(pos, 8.0)];
    ctx.Fill();
    ctx.Restore();
    assert (before.saved + [before.style])[..|before.saved|] == before.saved;
  }

  /** `drawOrnateFrame`: two notched rectangles and a dot on three corners. */
  method DrawOrnateFrame(ctx: Context, frameColor: string)
    modifies ctx
    ensures ctx.State() == OrnateOn(old(ctx.State()), ctx.width, ctx.height, frameColor)
  {
    var margin := 50.0;
    var logo := LogoPosition(ctx.width, ctx.height);
    ctx.style := ctx.style.(lineWidth := 10.0);
    DrawFrameWithLogoCutout(ctx, margin, logo, frameColor);
    ctx.style := ctx.style.(lineWidth := 4.0);
    DrawFrameWithLogoCutout(ctx, margin + 20.0, logo, frameColor);
    var positions := [Point(margin, margin), Point(ctx.width - margin, margin), Point(margin, ctx.height - margin)];
    assert positions == OrnateCorners(ctx.width, ctx.height);
    DrawOrnateDots(ctx, positions, frameColor);
  }

  /** The `cornerPositions.forEach` of `drawOrnateFrame`: one dot per position,
      in order. */
  method DrawOrnateDots(ctx: Context, positions: seq<Point>, frameColor: string)
    modifies ctx
    ensures ctx.State() == DotsOn(old(ctx.State()), positions, frameColor)
  {
    ghost var c0 := ctx.State();
    var i := 0;
    while i < |positions|
      invariant 0 <= i <= |positions|
      invariant ctx.State() == DotsOn(c0, positions[..i], frameColor)
    {
      var pos := positions[i];
      DrawOrnateDot(ctx, pos, frameColor);
      DotsOnSnoc(c0, positions[..i], pos, frameColor);
      assert positions[..i + 1] == positions[..i] + [pos];
      i := i + 1;
    }
    assert positions[..i] == positions;
  }

  /** `drawSacredGeometryFrame`: the diamond. */
  method DrawSacredGeometryFrame(ctx: Context)
    modifies ctx
    ensures ctx.State() == SacredOn(old(ctx.State()), ctx.width, ctx.height)
  {
    var centerX := ctx.width / 2.0;
    var centerY := ctx.height / 2.0;
    ctx.style := ctx.style.(lineWidth := 6.0);
    ctx.BeginPath();
    ctx.MoveTo(centerX, centerY - 380.0);
    ctx.LineTo(centerX + 380.0, centerY);
    ctx.LineTo(centerX, centerY + 380.0);
    ctx.LineTo(centerX - 380.0, centerY);
    ctx.ClosePath();
    assert ctx.path == DiamondPath(centerX, centerY);
    ctx.Stroke();
  }

  /** `drawElegantFrame`: two notched rectangles, the inner one faded. */
  method DrawElegantFrame(ctx: Context)
    modifies ctx
    ensures ctx.State() == ElegantOn(old(ctx.State()), ctx.width, ctx.height)
  {
    var margin := 70.0;
    var logo := LogoPosition(ctx.width, ctx.height);
    var frameColor := ctx.style.stroke;
    ctx.style := ctx.style.(lineWidth := 6.0);
    DrawFrameWithLogoCutout(ctx, margin, logo, frameColor);
    ctx.style := ctx.style.(lineWidth := 2.0);
    ctx.style := ctx.style.(alpha := 0.6);
    DrawFrameWithLogoCutout(ctx, margin + 15.0, logo, frameColor);
    ctx.style := ctx.style.(alpha := 1.0);
  }

  /** `drawRegardCielFrame`: the green banner and its yellow hashtag. */
  method DrawRegardCielFrame(ctx: Context)
    modifies ctx
    ensures ctx.State() == RegardCielFrameOn(old(ctx.State()), ctx.width, ctx.height)
  {
    var bannerHeight := 100.0;
    var bannerY := ctx.height - bannerHeight;
    ctx.style := ctx.style.(fill := Css("#2d6a4f"));
    ctx.FillRect(0.0, bannerY, ctx.width, bannerHeight);
    ctx.style := ctx.style.(fill := Css("#ffd60a"));
    ctx.style := ctx.style.(font := Font("italic bold", 52, Plain("Playfair Display, serif")));
    ctx.style := ctx.style.(align := "center");
    ctx.style := ctx.style.(baseline := "middle");
    ctx.FillText("#UnRegardAuCiel", ctx.width / 2.0, bannerY + bannerHeight / 2.0);
  }

  /** `drawEvangileFrame`: the dark gradient banner, taller for longer styles. */
  method DrawEvangileFrame(ctx: Context, f: FrameStyle)
    modifies ctx
    ensures ctx.State() == EvangileFrameOn(old(ctx.State()), ctx.width, ctx.height, f)
  {
    var gradientStart: real;
    if f == EvangileNarratif {
      gradientStart := ctx.height * 0.45;
    } else if f == EvangileVerset {
      gradientStart := ctx.height * 0.65;
    } else {
      gradientStart := ctx.height * 0.75;
    }
    ctx.style := ctx.style.(fill := LinearGradient(Point(0.0, gradientStart), Point(0.0, ctx.height), EvangileStops));
    ctx.FillRect(0.0, gradientStart, ctx.width, ctx.height - gradientStart);
  }

  /** `drawFrame(ctx, template, state)`. */
  method DrawFrame(ctx: Context, f: FrameStyle, frameColor: string)
    modifies ctx
    ensures ctx.State() == FrameOn(old(ctx.State()), f, ctx.width, ctx.height, frameColor)
  {
    ctx.style := ctx.style.(stroke := frameColor);
    ctx.style := ctx.style.(lineWidth := 8.0);
    match f
    case Circular => DrawCircularFrame(ctx);
    case Geometric => DrawGeometricFrame(ctx, frameColor);
    case Ornate => DrawOrnateFrame(ctx, frameColor);
    case GeometricSacred => DrawSacredGeometryFrame(ctx);
    case RegardCiel => DrawRegardCielFrame(ctx);
    case RegardCielNom => DrawRegardCielFrame(ctx);
    case RegardCielCitation => DrawRegardCielFrame(ctx);
    case EvangileSimple => DrawEvangileFrame(ctx, f);
    case EvangileVerset => DrawEvangileFrame(ctx, f);
    case EvangileNarratif => DrawEvangileFrame(ctx, f);
    case _ => DrawElegantFrame(ctx);
  }
}
