/**
 * `updateCanvas` of the legacy page (js/canvas.js): clear, then inside one
 * `try` the background (cover-fitted), the overlay, the frame, the text and
 * the round "VDS" badge; when anything in the `try` fails — in practice the
 * background image not loading — the `catch` paints the diagonal gradient
 * over what is there and nothing more is drawn. Unlike the renderer of the
 * editor, the legacy frames are plain rectangles that run through the
 * badge, the geometric frame has a decoration on all four corners and the
 * ornate frame a dot on all four corners.
 */
module LegacyCanvas {
  import opened Wrappers
  import opened Strings
  import opened Draw
  import opened HexColor
  import opened Templates
  import opened TextWrap
  import opened ImageCache
  import opened LegacyState
  import opened Frames
  import opened TextContent
  import opened Render

  // ---------------------------------------------------------------------------
  // Overlay

  /** `drawOverlay(template)`: the overlay colour at the state's opacity over
      the whole canvas. */
  function LegacyOverlayOn(c: Canvas, w: real, h: real, s: State): Canvas {
    RectFilled(WithStyle(c, c.style.(fill := OverlayPaint(s.overlayColor, s.overlayOpacity))), 0.0, 0.0, w, h)
  }

  method DrawLegacyOverlay(ctx: Context, s: State)
    modifies ctx
    ensures ctx.State() == LegacyOverlayOn(old(ctx.State()), ctx.width, ctx.height, s)
  {
    var opacity := (s.overlayOpacity as real) / 100.0;
    var r := ParseHex(Substr(s.overlayColor, 1, 2));
    var g := ParseHex(Substr(s.overlayColor, 3, 2));
    var b := ParseHex(Substr(s.overlayColor, 5, 2));
    ctx.style := ctx.style.(fill := Rgba(r, g, b, opacity));
    ctx.FillRect(0.0, 0.0, ctx.width, ctx.height);
  }

  // ---------------------------------------------------------------------------
  // Frames

  /** `ctx.strokeRect(x, y, w, h)` on a state value: the rectangle is stroked
      and the current path is left alone. */
  function RectStroked(c: Canvas, x: real, y: real, w: real, h: real): Canvas {
    c.(log := c.log + [Stroke(c.style, RectPath(x, y, w, h))])
  }

  /** Rectangle at margin 60, then a decoration on each of its four corners. */
  function LegacyGeometricOn(c: Canvas, w: real, h: real): Canvas {
    var margin := 60.0;
    var c1 := RectStroked(c, margin, margin, w - margin * 2.0, h - margin * 2.0);
    var c2 := WithStyle(c1, c1.style.(lineWidth := 6.0));
    var c3 := Stroked(c2, CornerPath(margin, margin, 40.0, false, false));
    var c4 := Stroked(c3, CornerPath(w - margin, margin, 40.0, true, false));
    var c5 := Stroked(c4, CornerPath(margin, h - margin, 40.0, false, true));
    Stroked(c5, CornerPath(w - margin, h - margin, 40.0, true, true))
  }

  /** The four dots of `drawOrnateCorners(margin)`, in the order drawn. */
  function LegacyOrnateCorners(w: real, h: real, margin: real): seq<Point> {
    [Point(margin, margin), Point(w - margin, margin), Point(margin, h - margin), Point(w - margin, h - margin)]
  }

  /** Rectangles at margins 50 (width 10) and 70 (width 4), then the dots. */
  function LegacyOrnateOn(c: Canvas, w: real, h: real, frameColor: string): Canvas {
    var margin := 50.0;
    var c1 := RectStroked(WithStyle(c, c.style.(lineWidth := 10.0)), margin, margin, w - margin * 2.0, h - margin * 2.0);
    var c2 := RectStroked(WithStyle(c1, c1.style.(lineWidth := 4.0)), margin + 20.0, margin + 20.0,
                          w - (margin + 20.0) * 2.0, h - (margin + 20.0) * 2.0);
    DotsOn(c2, LegacyOrnateCorners(w, h, margin), frameColor)
  }

  /** Rectangle at margin 70 (width 6), a fainter one at 85 (width 2, alpha
      0.6), alpha back to 1. */
  function LegacyElegantOn(c: Canvas, w: real, h: real): Canvas {
    var margin := 70.0;
    var c1 := RectStroked(WithStyle(c, c.style.(lineWidth := 6.0)), margin, margin, w - margin * 2.0, h - margin * 2.0);
    var c2 := RectStroked(WithStyle(c1, c1.style.(lineWidth := 2.0, alpha := 0.6)), margin + 15.0, margin + 15.0,
                          w - (margin + 15.0) * 2.0, h - (margin + 15.0) * 2.0);
    WithStyle(c2, c2.style.(alpha := 1.0))
  }

  /** `drawFrame(template)`: stroke colour and width 8, then the drawer of the
      style; every style other than the four named ones gets the elegant
      frame. The circle and the diamond are those of the editor. */
  function LegacyFrameOn(c: Canvas, f: FrameStyle, w: real, h: real, frameColor: string): Canvas {
    var c1 := WithStyle(c, c.style.(stroke := frameColor, lineWidth := 8.0));
    match f
    case Circular => CircularOn(c1, w, h)
    case Geometric => LegacyGeometricOn(c1, w, h)
    case Ornate => LegacyOrnateOn(c1, w, h, frameColor)
    case GeometricSacred => SacredOn(c1, w, h)
    case _ => LegacyElegantOn(c1, w, h)
  }

  method DrawLegacyGeometric(ctx: Context)
    modifies ctx
    ensures ctx.State() == LegacyGeometricOn(old(ctx.State()), ctx.width, ctx.height)
  {
    var margin := 60.0;
    ctx.StrokeRect(margin, margin, ctx.width - margin * 2.0, ctx.height - margin * 2.0);
    var cornerSize := 40.0;
    ctx.style := ctx.style.(lineWidth := 6.0);
    DrawCornerDecoration(ctx, margin, margin, cornerSize, false, false);
    DrawCornerDecoration(ctx, ctx.width - margin, margin, cornerSize, true, false);
    DrawCornerDecoration(ctx, margin, ctx.height - margin, cornerSize, false, true);
    DrawCornerDecoration(ctx, ctx.width - margin, ctx.height - margin, cornerSize, true, true);
  }

  method DrawLegacyOrnate(ctx: Context, frameColor: string)
    modifies ctx
    ensures ctx.State() == LegacyOrnateOn(old(ctx.State()), ctx.width, ctx.height, frameColor)
  {
    var margin := 50.0;
    ctx.style := ctx.style.(lineWidth := 10.0);
    ctx.StrokeRect(margin, margin, ctx.width - margin * 2.0, ctx.height - margin * 2.0);
    ctx.style := ctx.style.(lineWidth := 4.0);
    ctx.StrokeRect(margin + 20.0, margin + 20.0, ctx.width - (margin + 20.0) * 2.0, ctx.height - (margin + 20.0) * 2.0);
    DrawOrnateDots(ctx, LegacyOrnateCorners(ctx.width, ctx.height, margin), frameColor);
  }

  method DrawLegacyElegant(ctx: Context)
    modifies ctx
    ensures ctx.State() == LegacyElegantOn(old(ctx.State()), ctx.width, ctx.height)
  {
    var margin := 70.0;
    ctx.style := ctx.style.(lineWidth := 6.0);
    ctx.StrokeRect(margin, margin, ctx.width - margin * 2.0, ctx.height - margin * 2.0);
    ctx.style := ctx.style.(lineWidth := 2.0);
    ctx.style := ctx.style.(alpha := 0.6);
    ctx.StrokeRect(margin + 15.0, margin + 15.0, ctx.width - (margin + 15.0) * 2.0, ctx.height - (margin + 15.0) * 2.0);
    ctx.style := ctx.style.(alpha := 1.0);
  }

  method DrawLegacyFrame(ctx: Context, f: FrameStyle, frameColor: string)
    modifies ctx
    ensures ctx.State() == LegacyFrameOn(old(ctx.State()), f, ctx.width, ctx.height, frameColor)
  {
    ctx.style := ctx.style.(stroke := frameColor);
    ctx.style := ctx.style.(lineWidth := 8.0);
    match f
    case Circular => DrawCircularFrame(ctx);
    case Geometric => DrawLegacyGeometric(ctx);
    case Ornate => DrawLegacyOrnate(ctx, frameColor);
    case GeometricSacred => DrawSacredGeometryFrame(ctx);
    case _ => DrawLegacyElegant(ctx);
  }

  // ---------------------------------------------------------------------------
  // Text

  /** The family list `'${name}', ${generic}` of the legacy fonts. */
  function Quoted(name: string, generic: string): FontStack {
    Plain("'" + name + "', " + generic)
  }

  /** The font the legacy quote is measured and drawn in. */
  function LegacyQuoteFont(t: Template): Font {
    Font("", t.quoteSize, Quoted(t.quoteFont, "sans-serif"))
  }

  /** The first half of `drawTextContent(template)`: the title centred at
      height 200 in the text colour, then a 200-wide rule at 240 in the
      frame colour. */
  function LegacyHeadingOn(c: Canvas, w: real, t: Template, s: State): Canvas {
    var c1 := WithStyle(c, c.style.(fill := Css(s.textColor), align := "center", baseline := "middle",
                                    font := Font("", t.titleSize, Quoted(t.titleFont, "serif"))));
    var c2 := Written(c1, s.title, w / 2.0, 200.0);
    RectFilled(WithStyle(c2, c2.style.(fill := Css(s.frameColor))), w / 2.0 - 100.0, 240.0, 200.0, 3.0)
  }

  /** `drawTextContent(template)`: the heading, the quote wrapped to 700
      around the centre with 1.4 times its size between lines, and
      `— author` 200 above the bottom when there is an author. Sizes are the
      template's, unscaled. */
  function LegacyTextOn(c: Canvas, w: real, h: real, t: Template, s: State, measure: Measure): Canvas {
    var c3 := LegacyHeadingOn(c, w, t, s);
    var c4 := Wrapped(WithStyle(c3, c3.style.(fill := Css(s.textColor), font := LegacyQuoteFont(t))),
                      measure, s.quote, w / 2.0, h / 2.0, 700.0, t.quoteSize as real * 1.4);
    if s.author != "" then
      Written(WithStyle(c4, c4.style.(font := Font("italic", t.authorSize, Quoted(t.authorFont, "serif")))),
              "— " + s.author, w / 2.0, h - 200.0)
    else c4
  }

  method DrawLegacyHeading(ctx: Context, t: Template, s: State)
    modifies ctx
    ensures ctx.State() == LegacyHeadingOn(old(ctx.State()), ctx.width, t, s)
  {
    ctx.style := ctx.style.(fill := Css(s.textColor));
    ctx.style := ctx.style.(align := "center", baseline := "middle");
    var centerX := ctx.width / 2.0;
    ctx.style := ctx.style.(font := Font("", t.titleSize, Quoted(t.titleFont, "serif")));
    ctx.FillText(s.title, centerX, 200.0);
    ctx.style := ctx.style.(fill := Css(s.frameColor));
    ctx.FillRect(centerX - 100.0, 240.0, 200.0, 3.0);
  }

  method DrawLegacyText(ctx: Context, t: Template, s: State, measure: Measure)
    modifies ctx
    ensures ctx.State() == LegacyTextOn(old(ctx.State()), ctx.width, ctx.height, t, s, measure)
  {
    var centerX := ctx.width / 2.0;
    var centerY := ctx.height / 2.0;
    DrawLegacyHeading(ctx, t, s);
    ctx.style := ctx.style.(fill := Css(s.textColor));
    ctx.style := ctx.style.(font := LegacyQuoteFont(t));
    WrapText(ctx, measure, s.quote, centerX, centerY, 700.0, t.quoteSize as real * 1.4);
    if s.author != "" {
      ctx.style := ctx.style.(font := Font("italic", t.authorSize, Quoted(t.authorFont, "serif")));
      ctx.FillText("— " + s.author, centerX, ctx.height - 200.0);
    }
  }

  /** The legacy text draws the title, the rule, one command per wrapped
      line of the quote and, exactly when there is an author, the author
      line last; path and save stack are untouched. */
  lemma LegacyTextCommands(c: Canvas, w: real, h: real, t: Template, s: State, measure: Measure)
    ensures var r := LegacyTextOn(c, w, h, t, s, measure);
      var n := |c.log|;
      var lines := WrapLines(s.quote, Metrics(measure, LegacyQuoteFont(t), 700.0));
      r.path == c.path && r.saved == c.saved && c.log <= r.log &&
      |r.log| == n + 2 + |lines| + (if s.author != "" then 1 else 0) &&
      r.log[n].Text? && r.log[n].text == s.title && r.log[n].at == Point(w / 2.0, 200.0) &&
      r.log[n + 1].FillRect? && r.log[n + 1].style.fill == Css(s.frameColor) &&
      (r.log[n + 1].x, r.log[n + 1].y, r.log[n + 1].w, r.log[n + 1].h) == (w / 2.0 - 100.0, 240.0, 200.0, 3.0) &&
      (forall k :: 0 <= k < |lines| ==> r.log[n + 2 + k].Text? && r.log[n + 2 + k].text == Trim(lines[k])) &&
      (s.author != "" ==> r.log[|r.log| - 1].Text? && r.log[|r.log| - 1].text == "— " + s.author &&
                          r.log[|r.log| - 1].at == Point(w / 2.0, h - 200.0))
  {
  }

  // ---------------------------------------------------------------------------
  // Logo

  const LegacyLogoRadius: real := 30.0

  /** Centre of the legacy badge: 100 from the right, 80 from the bottom. */
  function LegacyLogoCenter(w: real, h: real): Point {
    Point(w - 100.0, h - 80.0)
  }

  /** `drawLogo()`: inside `save()`/`restore()`, a disc of radius 30 in the
      frame colour and "VDS" in white bold 24px Inter on it. */
  function LegacyLogoOn(c: Canvas, w: real, h: real, frameColor: string): Canvas {
    var at := LegacyLogoCenter(w, h);
    var c1 := Saved(c);
    var c2 := Filled(WithStyle(c1, c1.style.(fill := Css(frameColor))), [Circle(at, LegacyLogoRadius)]);
    var c3 := WithStyle(c2, c2.style.(fill := Css("#ffffff"), font := Font("bold", 24, Plain("Inter")),
                                      align := "center", baseline := "middle"));
    Restored(Written(c3, "VDS", at.x, at.y))
  }

  method DrawLegacyLogo(ctx: Context, frameColor: string)
    modifies ctx
    ensures ctx.State() == LegacyLogoOn(old(ctx.State()), ctx.width, ctx.height, frameColor)
  {
    ctx.Save();
    var logoX := ctx.width - 100.0;
    var logoY := ctx.height - 80.0;
    ctx.style := ctx.style.(fill := Css(frameColor));
    ctx.BeginPath();
    ctx.Arc(logoX, logoY, 30.0);
    assert ctx.path == [Circle(LegacyLogoCenter(ctx.width, ctx.height), LegacyLogoRadius)];
    ctx.Fill();
    ctx.style := ctx.style.(fill := Css("#ffffff"));
    ctx.style := ctx.style.(font := Font("bold", 24, Plain("Inter")));
    ctx.style := ctx.style.(align := "center", baseline := "middle");
    ctx.FillText("VDS", logoX, logoY);
    ctx.Restore();
  }

  /** The badge is two commands, the disc in the frame colour and "VDS"
      centred on it, and the style and save stack are as before. */
  lemma LegacyLogoDrawn(c: Canvas, w: real, h: real, frameColor: string)
    ensures var r := LegacyLogoOn(c, w, h, frameColor);
      var at := LegacyLogoCenter(w, h);
      r.style == c.style && r.saved == c.saved && |r.log| == |c.log| + 2 && c.log <= r.log &&
      r.log[|c.log|] == Fill(c.style.(fill := Css(frameColor)), [Circle(at, 30.0)]) &&
      r.log[|c.log| + 1].Text? && r.log[|c.log| + 1].text == "VDS" && r.log[|c.log| + 1].at == at &&
      r.log[|c.log| + 1].style.fill == Css("#ffffff")
  {
    assert (c.saved + [c.style])[..|c.saved|] == c.saved;
  }

  // ---------------------------------------------------------------------------
  // The legacy frames run through the badge

  /** A horizontal segment from `a` to `b` passes through the point
      `(center.x, a.y)`, which lies strictly inside the disc. */
  predicate HorizontalThrough(a: Point, b: Point, center: Point, radius: real) {
    a.y == b.y && (a.x <= center.x <= b.x || b.x <= center.x <= a.x) &&
    -radius < a.y - center.y < radius
  }

  /** Some straight horizontal piece of the path crosses the inside of the
      disc. */
  predicate CrossesDisc(path: seq<PathOp>, center: Point, radius: real) {
    exists i :: 1 <= i < |path| && path[i].LineTo? && (path[i - 1].MoveTo? || path[i - 1].LineTo?) &&
      HorizontalThrough(path[i - 1].p, path[i].p, center, radius)
  }

  /** The bottom edge of a rectangle at margin 60 or 70 runs through the
      badge, whenever the canvas is at least 170 wide. */
  lemma BottomEdgeCrosses(w: real, h: real, margin: real)
    requires margin == 60.0 || margin == 70.0
    requires w >= 170.0
    ensures CrossesDisc(RectPath(margin, margin, w - margin * 2.0, h - margin * 2.0), LegacyLogoCenter(w, h), LegacyLogoRadius)
  {
    var path := RectPath(margin, margin, w - margin * 2.0, h - margin * 2.0);
    assert path[3].LineTo? && path[2].LineTo?;
    assert HorizontalThrough(path[2].p, path[3].p, LegacyLogoCenter(w, h), LegacyLogoRadius);
  }

  /** Contrary to the editor's frames, which keep the logo clear
      (`Frames.FrameClearsLogo`), the legacy geometric, ornate and elegant
      frames stroke a rectangle edge straight through the badge. */
  lemma LegacyFramesCrossLogo(c: Canvas, f: FrameStyle, w: real, h: real, frameColor: string)
    requires !f.Circular? && !f.GeometricSacred?
    requires w >= 170.0
    ensures var r := LegacyFrameOn(c, f, w, h, frameColor);
      exists k :: |c.log| <= k < |r.log| && r.log[k].Stroke? &&
        CrossesDisc(r.log[k].path, LegacyLogoCenter(w, h), LegacyLogoRadius)
  {
    var c1 := WithStyle(c, c.style.(stroke := frameColor, lineWidth := 8.0));
    var n := |c.log|;
    if f.Geometric? {
      BottomEdgeCrosses(w, h, 60.0);
      var r := LegacyGeometricOn(c1, w, h);
      assert r.log[n] == Stroke(c1.style, RectPath(60.0, 60.0, w - 60.0 * 2.0, h - 60.0 * 2.0));
      assert LegacyFrameOn(c, f, w, h, frameColor) == r;
    } else if f.Ornate? {
      BottomEdgeCrosses(w, h, 70.0);
      var r := LegacyOrnateOn(c1, w, h, frameColor);
      LegacyOrnateDots(c1, w, h, frameColor);
      assert r.log[n + 1] == Stroke(c1.style.(lineWidth := 4.0), RectPath(70.0, 70.0, w - 70.0 * 2.0, h - 70.0 * 2.0));
      assert LegacyFrameOn(c, f, w, h, frameColor) == r;
    } else {
      BottomEdgeCrosses(w, h, 70.0);
      var r := LegacyElegantOn(c1, w, h);
      assert r.log[n] == Stroke(c1.style.(lineWidth := 6.0), RectPath(70.0, 70.0, w - 70.0 * 2.0, h - 70.0 * 2.0));
      assert LegacyFrameOn(c, f, w, h, frameColor) == r;
    }
  }

  /** Which vertex of `RectPath` each corner decoration or dot sits on, in
      the order the source draws them: top left, top right, bottom left,
      bottom right. */
  function CornerVertex(j: nat): nat
    requires j < 4
  {
    [0, 1, 3, 2][j]
  }

  /** The four legacy corner decorations sit on the four vertices of the
      rectangle stroked just before them, and both arms of each point into
      the rectangle, whenever the canvas is at least 160 on each side. */
  lemma LegacyGeometricCorners(c: Canvas, w: real, h: real)
    requires w >= 160.0 && h >= 160.0
    ensures var r := LegacyGeometricOn(c, w, h);
      var n := |c.log|;
      var rect := RectPath(60.0, 60.0, w - 120.0, h - 120.0);
      |r.log| == n + 5 && c.log <= r.log && r.log[n] == Stroke(c.style, rect) &&
      forall j :: 0 <= j < 4 ==>
        r.log[n + 1 + j].Stroke? && |r.log[n + 1 + j].path| == 3 &&
        r.log[n + 1 + j].path[1].p == rect[CornerVertex(j)].p &&
        60.0 <= r.log[n + 1 + j].path[0].p.x <= w - 60.0 && 60.0 <= r.log[n + 1 + j].path[0].p.y <= h - 60.0 &&
        60.0 <= r.log[n + 1 + j].path[2].p.x <= w - 60.0 && 60.0 <= r.log[n + 1 + j].path[2].p.y <= h - 60.0
  {
  }

  /** The four legacy dots sit on the four vertices of the outer rectangle,
      in the frame colour. */
  lemma LegacyOrnateDots(c: Canvas, w: real, h: real, frameColor: string)
    ensures var r := LegacyOrnateOn(c, w, h, frameColor);
      var n := |c.log|;
      var outer := RectPath(50.0, 50.0, w - 100.0, h - 100.0);
      |r.log| == n + 6 && c.log <= r.log && r.log[n] == Stroke(c.style.(lineWidth := 10.0), outer) &&
      forall j :: 0 <= j < 4 ==>
        r.log[n + 2 + j] == Fill(c.style.(lineWidth := 4.0, fill := Css(frameColor)), [Circle(outer[CornerVertex(j)].p, 8.0)])
  {
    var c2 := RectStroked(RectStroked(WithStyle(c, c.style.(lineWidth := 10.0)), 50.0, 50.0, w - 100.0, h - 100.0).(style := c.style.(lineWidth := 4.0)),
                          70.0, 70.0, w - 140.0, h - 140.0);
    var corners := LegacyOrnateCorners(w, h, 50.0);
    var outer := RectPath(50.0, 50.0, w - 100.0, h - 100.0);
    assert LegacyOrnateOn(c, w, h, frameColor) == DotsOn(c2, corners, frameColor);
    assert |c2.log| == |c.log| + 2;
    forall j | 0 <= j < 4
      ensures corners[j] == outer[CornerVertex(j)].p
    {
    }
  }

  // ---------------------------------------------------------------------------
  // The whole picture

  /** `currentState.backgroundImage || template.defaultBg`: with no
      background of its own and no template, reading `template.defaultBg`
      throws before the `try`, which `None` stands for. */
  function LegacyBackgroundUrl(s: State, r: Result<Template, LookupError>): Option<string> {
    if s.backgroundImage.Some? && s.backgroundImage.value != "" then Some(s.backgroundImage.value)
    else if r.Ok? then Some(r.value.defaultBg)
    else None
  }

  /** The URL `updateCanvas` loads: none when the lookup has already thrown
      on a category the catalog lacks (`templates[type]` is undefined, so
      indexing it throws before the canvas is cleared), or when the URL
      expression throws. */
  function LoadedUrl(s: State, r: Result<Template, LookupError>): Option<string> {
    if r == Err(UnknownCategory) then None else LegacyBackgroundUrl(s, r)
  }

  /** The start of the `try`: the canvas cleared, the background drawn
      with the cover fit, and the overlay over it. */
  function BackdropOn(c: Canvas, w: real, h: real, s: State, img: Image): Canvas {
    LegacyOverlayOn(BackgroundOn(c.(log := c.log + [Clear(0.0, 0.0, w, h)]), w, h, Some(img)), w, h, s)
  }

  /** The rest of the `try` when the template is found: frame, text, badge. */
  function SceneOn(c: Canvas, w: real, h: real, t: Template, s: State, measure: Measure): Canvas {
    LegacyLogoOn(LegacyTextOn(LegacyFrameOn(c, t.frameStyle, w, h, s.frameColor), w, h, t, s, measure), w, h, s.frameColor)
  }

  /** The state after `updateCanvas`, given the template lookup and what
      loading the background gave. An unknown category throws in the lookup,
      before anything is drawn. An index out of range gives no template: then
      `drawFrame` throws on `template.frameStyle` after setting the stroke,
      and the `catch` paints the gradient over the background and overlay. */
  function UpdateOn(c: Canvas, w: real, h: real, r: Result<Template, LookupError>, s: State,
                    measure: Measure, bg: Option<Image>): Canvas {
    var c0 := c.(log := c.log + [Clear(0.0, 0.0, w, h)]);
    if r == Err(UnknownCategory) then c
    else if LegacyBackgroundUrl(s, r).None? then c0
    else match bg
      case None => BackgroundOn(c0, w, h, None)
      case Some(img) =>
        var c1 := BackdropOn(c, w, h, s, img);
        match r
        case Err(_) =>
          BackgroundOn(WithStyle(c1, c1.style.(stroke := s.frameColor, lineWidth := 8.0)), w, h, None)
        case Ok(t) => SceneOn(c1, w, h, t, s, measure)
  }

  /** The gradient of the `catch`, drawn in style `st`. */
  function GradientCmd(st: Style, w: real, h: real): DrawCmd {
    FillRect(st.(fill := LinearGradient(Point(0.0, 0.0), Point(w, h), BackgroundStops)), 0.0, 0.0, w, h)
  }

  /** The failure paths of `updateCanvas`: an unknown category draws
      nothing, not even the clear; without a background URL only the clear
      happens; a background that does not load gives the clear and the
      gradient and nothing else; a missing template with a loaded background
      ends on the gradient over the whole canvas. */
  lemma UpdateFailurePaths(c: Canvas, w: real, h: real, r: Result<Template, LookupError>, s: State,
                           measure: Measure, bg: Option<Image>)
    ensures var u := UpdateOn(c, w, h, r, s, measure, bg);
      (r == Err(UnknownCategory) ==> u == c) &&
      (r != Err(UnknownCategory) && LoadedUrl(s, r).None? ==> u.log == c.log + [Clear(0.0, 0.0, w, h)]) &&
      (LoadedUrl(s, r).Some? && bg.None? ==>
         u.log == c.log + [Clear(0.0, 0.0, w, h), GradientCmd(c.style, w, h)]) &&
      (LoadedUrl(s, r).Some? && bg.Some? && r.Err? ==>
         |u.log| == |c.log| + 4 && u.log[|u.log| - 1].FillRect? && u.log[|u.log| - 1].style.fill.LinearGradient? &&
         (u.log[|u.log| - 1].x, u.log[|u.log| - 1].y, u.log[|u.log| - 1].w, u.log[|u.log| - 1].h) == (0.0, 0.0, w, h))
  {
  }

  /** When the background loads and the template is found: clear, the
      cover-fitted background, the overlay over the whole canvas, then frame
      and text, and the badge last, disc then "VDS"; the save stack is as
      before. */
  lemma UpdateSuccessPhases(c: Canvas, w: real, h: real, t: Template, s: State, measure: Measure, img: Image)
    ensures UpdateOn(c, w, h, Ok(t), s, measure, Some(img)) == SceneOn(BackdropOn(c, w, h, s, img), w, h, t, s, measure)
    ensures var u := SceneOn(BackdropOn(c, w, h, s, img), w, h, t, s, measure);
      var n := |c.log|;
      var p := CoverFit(w, h, img);
      c.log <= u.log && |u.log| >= n + 5 && u.saved == c.saved &&
      u.log[n] == Clear(0.0, 0.0, w, h) &&
      u.log[n + 1] == Picture(c.style, img, p.x, p.y, p.w, p.h) &&
      u.log[n + 2] == FillRect(c.style.(fill := OverlayPaint(s.overlayColor, s.overlayOpacity)), 0.0, 0.0, w, h) &&
      u.log[|u.log| - 2].Fill? && u.log[|u.log| - 2].path == [Circle(LegacyLogoCenter(w, h), 30.0)] &&
      u.log[|u.log| - 1].Text? && u.log[|u.log| - 1].text == "VDS"
  {
    var c1 := BackdropOn(c, w, h, s, img);
    var p := CoverFit(w, h, img);
    assert c1.log == c.log + [Clear(0.0, 0.0, w, h), Picture(c.style, img, p.x, p.y, p.w, p.h),
      FillRect(c.style.(fill := OverlayPaint(s.overlayColor, s.overlayOpacity)), 0.0, 0.0, w, h)];
    SceneEndsOnBadge(c1, w, h, t, s, measure);
  }

  /** Frame, text and badge append to the log, the badge's disc and "VDS"
      last, and keep the save stack. */
  lemma SceneEndsOnBadge(c: Canvas, w: real, h: real, t: Template, s: State, measure: Measure)
    ensures var r := SceneOn(c, w, h, t, s, measure);
      c.log <= r.log && |r.log| >= |c.log| + 2 && r.saved == c.saved &&
      r.log[|r.log| - 2].Fill? && r.log[|r.log| - 2].path == [Circle(LegacyLogoCenter(w, h), 30.0)] &&
      r.log[|r.log| - 1].Text? && r.log[|r.log| - 1].text == "VDS"
  {
    var c2 := LegacyFrameOn(c, t.frameStyle, w, h, s.frameColor);
    LegacyFrameAppends(c, t.frameStyle, w, h, s.frameColor);
    var c3 := LegacyTextOn(c2, w, h, t, s, measure);
    LegacyTextCommands(c2, w, h, t, s, measure);
    LegacyLogoDrawn(c3, w, h, s.frameColor);
  }

  /** The legacy frames only append to the log and keep the save stack. */
  lemma LegacyFrameAppends(c: Canvas, f: FrameStyle, w: real, h: real, frameColor: string)
    ensures var r := LegacyFrameOn(c, f, w, h, frameColor);
      c.log <= r.log && r.saved == c.saved
  {
    if f.Ornate? {
      var c1 := WithStyle(c, c.style.(stroke := frameColor, lineWidth := 8.0));
      LegacyOrnateDots(c1, w, h, frameColor);
    }
  }

  /** `updateCanvas()`: the template is looked up, the canvas cleared, and
      the background loaded through the cache; the state object is only
      read. A lookup that throws ends the call before the clear. */
  method UpdateCanvas(ctx: Context, cache: Cache, fetch: Loader, st: CurrentState, measure: Measure)
    modifies ctx, cache
    ensures var s := st.Snapshot();
      var r := TemplateOf(s);
      match LoadedUrl(s, r)
      case None =>
        cache.entries == old(cache.entries) &&
        ctx.State() == UpdateOn(old(ctx.State()), ctx.width, ctx.height, r, s, measure, None)
      case Some(url) =>
        var (bg, after) := CacheLoad(old(cache.entries), url, fetch);
        cache.entries == after &&
        ctx.State() == UpdateOn(old(ctx.State()), ctx.width, ctx.height, r, s, measure, bg)
  {
    var template := st.GetCurrentTemplate();
    var s := st.Snapshot();
    if template == Err(UnknownCategory) {
      return;
    }
    ctx.ClearRect(0.0, 0.0, ctx.width, ctx.height);
    var bgUrl := LegacyBackgroundUrl(s, template);
    if bgUrl.None? {
      return;
    }
    var bg := cache.Load(bgUrl.value, fetch);
    match bg {
      case None =>
        DrawBackground(ctx, None);
      case Some(img) =>
        DrawBackground(ctx, bg);
        DrawLegacyOverlay(ctx, s);
        assert ctx.State() == BackdropOn(old(ctx.State()), ctx.width, ctx.height, s, img);
        match template {
          case Err(_) =>
            ctx.style := ctx.style.(stroke := s.frameColor);
            ctx.style := ctx.style.(lineWidth := 8.0);
            DrawBackground(ctx, None);
          case Ok(t) =>
            DrawLegacyFrame(ctx, t.frameStyle, s.frameColor);
            DrawLegacyText(ctx, t, s, measure);
            DrawLegacyLogo(ctx, s.frameColor);
        }
    }
  }
}
