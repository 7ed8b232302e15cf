/**
 * `renderCanvas` (lib/canvas-utils.ts): clear, background (cover-fitted
 * image, or a diagonal gradient when it fails to load), overlay, frame, text,
 * and the logo (bottom right, or top right for the "Un Regard au Ciel"
 * styles). Images come through the cache of `loadImage`; the browser's
 * loader is the parameter `fetch`.
 */
module Render {
  import opened Wrappers
  import opened Strings
  import opened Draw
  import opened HexColor
  import opened Layout
  import opened Templates
  import opened Frames
  import opened TextContent
  import opened ImageCache

  const DefaultLogoPath := "/images/logo-vds.png"
  const BackgroundStops := [ColorStop(0.0, "#2c3e50"), ColorStop(1.0, "#3498db")]
  const LogoGlow := "rgba(255, 255, 255, 0.8)"

  /** `value || fallback` for an optional string: a missing or empty value
      gives the fallback. */
  function OrDefault(value: Option<string>, fallback: string): string {
    if value.Some? && value.value != "" then value.value else fallback
  }

  /** `state.backgroundImage || template.defaultBg`. */
  function BackgroundUrl(s: CanvasState, t: Template): string {
    OrDefault(s.backgroundImage, t.defaultBg)
  }

  /** `state.customLogo || DEFAULT_LOGO_PATH`. */
  function LogoUrl(s: CanvasState): string {
    OrDefault(s.customLogo, DefaultLogoPath)
  }

  // ---------------------------------------------------------------------------
  // Background

  function Max(a: real, b: real): real {
    if a >= b then a else b
  }

  /** Where a drawn image goes. */
  datatype Placement = Placement(x: real, y: real, w: real, h: real)

  /** The cover fit: the image scaled by the larger of the two ratios, centred. */
  function CoverFit(w: real, h: real, img: Image): Placement {
    var scale := Max(w / img.width, h / img.height);
    Placement((w - img.width * scale) / 2.0, (h - img.height * scale) / 2.0, img.width * scale, img.height * scale)
  }

  /** The cover fit fills the canvas: at least as wide and as high, exactly
      as wide or exactly as high, centred, and with the image's proportions. */
  lemma CoverFitCovers(w: real, h: real, img: Image)
    ensures var p := CoverFit(w, h, img);
      p.w >= w && p.h >= h && (p.w == w || p.h == h) &&
      p.x <= 0.0 && p.y <= 0.0 && p.x + p.w == w - p.x && p.y + p.h == h - p.y &&
      p.w * img.height == p.h * img.width
  {
    var iw, ih := img.width, img.height;
    var sw, sh := w / iw, h / ih;
    assert sw * iw == w && sh * ih == h;
    var scale := Max(sw, sh);
    if sw >= sh {
      assert scale * ih >= sh * ih;
    } else {
      assert scale * iw >= sw * iw;
    }
    assert (iw * scale) * ih == (ih * scale) * iw;
  }

  /** The background: the loaded image, cover-fitted, or the fallback gradient
      over the whole canvas. */
  function BackgroundOn(c: Canvas, w: real, h: real, bg: Option<Image>): Canvas {
    match bg
    case Some(img) =>
      var p := CoverFit(w, h, img);
      Pictured(c, img, p.x, p.y, p.w, p.h)
    case None =>
      RectFilled(WithStyle(c, c.style.(fill := LinearGradient(Point(0.0, 0.0), Point(w, h), BackgroundStops))), 0.0, 0.0, w, h)
  }

  /** The background is one command: the image on the cover-fit placement,
      or a gradient fill over the whole canvas; the style is untouched when
      the image is drawn. */
  lemma BackgroundDrawn(c: Canvas, w: real, h: real, bg: Option<Image>)
    ensures var r := BackgroundOn(c, w, h, bg);
      |r.log| == |c.log| + 1 && c.log <= r.log && r.saved == c.saved &&
      (bg.Some? ==>
         var p := CoverFit(w, h, bg.value);
         r.style == c.style && r.log[|c.log|].Picture? && r.log[|c.log|].image == bg.value &&
         Placement(r.log[|c.log|].x, r.log[|c.log|].y, r.log[|c.log|].w, r.log[|c.log|].h) == p) &&
      (bg.None? ==>
         r.log[|c.log|].FillRect? && r.log[|c.log|].style.fill.LinearGradient? &&
         (r.log[|c.log|].x, r.log[|c.log|].y, r.log[|c.log|].w, r.log[|c.log|].h) == (0.0, 0.0, w, h))
  {
  }

  method DrawBackground(ctx: Context, bg: Option<Image>)
    modifies ctx
    ensures ctx.State() == BackgroundOn(old(ctx.State()), ctx.width, ctx.height, bg)
  {
    match bg {
      case Some(img) =>
        var scale := Max(ctx.width / img.width, ctx.height / img.height);
        var x := (ctx.width - img.width * scale) / 2.0;
        var y := (ctx.height - img.height * scale) / 2.0;
        assert CoverFit(ctx.width, ctx.height, img) == Placement(x, y, img.width * scale, img.height * scale);
        ctx.DrawImage(img, x, y, img.width * scale, img.height * scale);
      case None =>
        ctx.style := ctx.style.(fill := LinearGradient(Point(0.0, 0.0), Point(ctx.width, ctx.height), BackgroundStops));
        ctx.FillRect(0.0, 0.0, ctx.width, ctx.height);
    }
  }

  // ---------------------------------------------------------------------------
  // Overlay

  /** `rgba(${r}, ${g}, ${b}, ${opacity})` from an overlay colour and an
      opacity percentage; a component that does not parse stays `None`. The
      legacy overlay builds the same paint. */
  function OverlayPaint(color: string, opacity: int): Paint {
    var rgb := HexToRgb(color);
    Rgba(rgb.r, rgb.g, rgb.b, (opacity as real) / 100.0)
  }

  function OverlayOn(c: Canvas, w: real, h: real, s: CanvasState): Canvas {
    RectFilled(WithStyle(c, c.style.(fill := OverlayPaint(s.overlayColor, s.overlayOpacity))), 0.0, 0.0, w, h)
  }

  /** For a colour the editor accepts, the overlay is that colour, every
      component in 0..255, and a percentage in 0..100 is an alpha in 0..1. */
  lemma OverlayOfGuardedColor(color: string, opacity: int)
    requires IsHexColor(color)
    ensures var p := OverlayPaint(color, opacity);
      p.Rgba? && p.r.Some? && p.g.Some? && p.b.Some? &&
      0 <= p.r.value <= 255 && 0 <= p.g.value <= 255 && 0 <= p.b.value <= 255
    ensures 0 <= opacity <= 100 ==> 0.0 <= OverlayPaint(color, opacity).a <= 1.0
  {
    HexToRgbOfHexColor(color);
  }

  /** The overlay drawn for a colour written as `#rrggbb` has exactly those
      components. */
  lemma OverlayOfFormatted(opacity: int, r: nat, g: nat, b: nat)
    requires r < 256 && g < 256 && b < 256
    ensures OverlayPaint(FormatHex(r, g, b), opacity) == Rgba(Some(r), Some(g), Some(b), (opacity as real) / 100.0)
  {
    RoundTrip(r, g, b);
  }

  method DrawOverlay(ctx: Context, s: CanvasState)
    modifies ctx
    ensures ctx.State() == OverlayOn(old(ctx.State()), ctx.width, ctx.height, s)
  {
    var opacity := (s.overlayOpacity as real) / 100.0;
    var rgb := HexToRgb(s.overlayColor);
    ctx.style := ctx.style.(fill := Rgba(rgb.r, rgb.g, rgb.b, opacity));
    ctx.FillRect(0.0, 0.0, ctx.width, ctx.height);
  }

  // ---------------------------------------------------------------------------
  // Logos

  /** The logo image with its white glow, the glow switched off after. */
  function LogoImageOn(c: Canvas, x: real, y: real, img: Image): Canvas {
    var c1 := WithStyle(c, c.style.(shadowColor := LogoGlow, shadowBlur := LogoShadowBlur,
                                    shadowOffsetX := 0.0, shadowOffsetY := 0.0));
    var c2 := Pictured(c1, img, x - LogoSize / 2.0, y - LogoSize / 2.0, LogoSize, LogoSize);
    WithStyle(c2, c2.style.(shadowColor := "transparent", shadowBlur := 0.0))
  }

  /** `drawFallbackLogo`: "VDS" in the frame colour, with a glow. */
  function FallbackLogoOn(c: Canvas, x: real, y: real, frameColor: string): Canvas {
    Written(WithStyle(c, c.style.(shadowColor := LogoGlow, shadowBlur := 10.0, fill := Css(frameColor),
                                  font := Font("bold", 28, Plain("Inter")), align := "center", baseline := "middle")),
            "VDS", x, y)
  }

  /** `drawLogo`: inside `save()`/`restore()`, the logo image, or the text
      logo when the image does not load. */
  function LogoOn(c: Canvas, w: real, h: real, s: CanvasState, logo: Option<Image>): Canvas {
    var x := w - LogoMarginRight;
    var y := h - LogoMarginBottom;
    var c1 := Saved(c);
    var c2 := match logo
      case Some(img) => LogoImageOn(c1, x, y, img)
      case None => FallbackLogoOn(c1, x, y, s.frameColor);
    Restored(c2)
  }

  /** The logo adds one command and leaves the context's style, path and
      save stack as they were: the image exactly on the square the frames
      keep clear (`LogoBox`), or the text logo at its centre. */
  lemma LogoDrawn(c: Canvas, w: real, h: real, s: CanvasState, logo: Option<Image>)
    ensures var r := LogoOn(c, w, h, s, logo);
      var b := LogoBox(w, h);
      r.style == c.style && r.path == c.path && r.saved == c.saved &&
      |r.log| == |c.log| + 1 && c.log <= r.log &&
      (logo.Some? ==>
         r.log[|c.log|].Picture? && r.log[|c.log|].image == logo.value &&
         r.log[|c.log|].x == b.x0 && r.log[|c.log|].y == b.y0 &&
         r.log[|c.log|].x + r.log[|c.log|].w == b.x1 && r.log[|c.log|].y + r.log[|c.log|].h == b.y1) &&
      (logo.None? ==>
         r.log[|c.log|].Text? && r.log[|c.log|].text == "VDS" &&
         r.log[|c.log|].at == Point((b.x0 + b.x1) / 2.0, (b.y0 + b.y1) / 2.0))
  {
    assert (c.saved + [c.style])[..|c.saved|] == c.saved;
  }

  method DrawFallbackLogo(ctx: Context, x: real, y: real, frameColor: string)
    modifies ctx
    ensures ctx.State() == FallbackLogoOn(old(ctx.State()), x, y, frameColor)
  {
    ctx.style := ctx.style.(shadowColor := LogoGlow, shadowBlur := 10.0);
    ctx.style := ctx.style.(fill := Css(frameColor));
    ctx.style := ctx.style.(font := Font("bold", 28, Plain("Inter")));
    ctx.style := ctx.style.(align := "center", baseline := "middle");
    ctx.FillText("VDS", x, y);
  }

  /** `drawLogo`, given what loading the logo URL gave. */
  method DrawLogo(ctx: Context, s: CanvasState, logo: Option<Image>)
    modifies ctx
    ensures ctx.State() == LogoOn(old(ctx.State()), ctx.width, ctx.height, s, logo)
  {
    var x := ctx.width - LogoMarginRight;
    var y := ctx.height - LogoMarginBottom;
    ctx.Save();
    match logo {
      case Some(img) =>
        ctx.style := ctx.style.(shadowColor := LogoGlow, shadowBlur := LogoShadowBlur);
        ctx.style := ctx.style.(shadowOffsetX := 0.0, shadowOffsetY := 0.0);
        ctx.DrawImage(img, x - LogoSize / 2.0, y - LogoSize / 2.0, LogoSize, LogoSize);
        ctx.style := ctx.style.(shadowColor := "transparent", shadowBlur := 0.0);
      case None =>
        DrawFallbackLogo(ctx, x, y, s.frameColor);
    }
    ctx.Restore();
  }

  const RegardCielLogoSize: real := 70.0
  const RegardCielLogoMargin: real := 30.0

  /** `drawRegardCielLogo`: a white disc in the top right corner and the logo
      image on it, when it loads; nothing else when it does not. */
  function RegardCielLogoOn(c: Canvas, w: real, logo: Option<Image>): Canvas {
    var x := w - RegardCielLogoMargin - RegardCielLogoSize / 2.0;
    var y := RegardCielLogoMargin + RegardCielLogoSize / 2.0;
    var c1 := Saved(c);
    var c2 := Filled(WithStyle(c1, c1.style.(fill := Css("#ffffff"))), [Circle(Point(x, y), RegardCielLogoSize / 2.0 + 5.0)]);
    var c3 := match logo
      case Some(img) =>
        Pictured(c2, img, x - RegardCielLogoSize / 2.0, y - RegardCielLogoSize / 2.0, RegardCielLogoSize, RegardCielLogoSize)
      case None => c2;
    Restored(c3)
  }

  /** The top-right logo keeps the style and the save stack, draws the white
      disc of radius 40 around `(w - 65, 65)`, then the image on the square
      `(w - 100, 30)`–`(w - 30, 100)` when it loads; disc and image stay above
      the banner of the style whenever the canvas is at least 206 high. */
  lemma RegardCielLogoDrawn(c: Canvas, w: real, h: real, logo: Option<Image>)
    ensures var r := RegardCielLogoOn(c, w, logo);
      r.style == c.style && r.saved == c.saved && c.log <= r.log &&
      |r.log| == |c.log| + (if logo.Some? then 2 else 1) &&
      r.log[|c.log|] == Fill(c.style.(fill := Css("#ffffff")), [Circle(Point(w - 65.0, 65.0), 40.0)]) &&
      (logo.Some? ==> r.log[|c.log| + 1] == Picture(c.style.(fill := Css("#ffffff")), logo.value, w - 100.0, 30.0, 70.0, 70.0))
    ensures h >= 206.0 ==> 65.0 + 40.0 < h - BannerHeight && 30.0 + 70.0 < h - BannerHeight
  {
    assert (c.saved + [c.style])[..|c.saved|] == c.saved;
  }

  method DrawRegardCielLogo(ctx: Context, logo: Option<Image>)
    modifies ctx
    ensures ctx.State() == RegardCielLogoOn(old(ctx.State()), ctx.width, logo)
  {
    var logoSize := RegardCielLogoSize;
    var margin := RegardCielLogoMargin;
    var logoX := ctx.width - margin - logoSize / 2.0;
    var logoY := margin + logoSize / 2.0;
    ctx.Save();
    ctx.style := ctx.style.(fill := Css("#ffffff"));
    ctx.BeginPath();
    ctx.Arc(logoX, logoY, logoSize / 2.0 + 5.0);
    assert ctx.path == [Circle(Point(logoX, logoY), RegardCielLogoSize / 2.0 + 5.0)];
    ctx.Fill();
    match logo {
      case Some(img) =>
        ctx.DrawImage(img, logoX - logoSize / 2.0, logoY - logoSize / 2.0, logoSize, logoSize);
      case None =>
    }
    ctx.Restore();
  }

  // ---------------------------------------------------------------------------
  // The whole picture

  /** Overlay, frame, text, then the logo the family of the style calls for. */
  function ElementsOn(c: Canvas, w: real, h: real, t: Template, s: CanvasState, measure: Measure, logo: Option<Image>): Canvas {
    var c1 := OverlayOn(c, w, h, s);
    var c2 := FrameOn(c1, t.frameStyle, w, h, s.frameColor);
    FinalLogoOn(TextOn(c2, w, h, t, s, measure), w, h, t, s, logo)
  }

  /** The logo the family of the style calls for. */
  function FinalLogoOn(c: Canvas, w: real, h: real, t: Template, s: CanvasState, logo: Option<Image>): Canvas {
    if FamilyOf(t.frameStyle) == RegardCielFamily then RegardCielLogoOn(c, w, logo)
    else LogoOn(c, w, h, s, logo)
  }

  /** The logo step appends at least one command and keeps the save stack;
      outside the "Un Regard au Ciel" family its one command is the logo. */
  lemma FinalLogoLast(c: Canvas, w: real, h: real, t: Template, s: CanvasState, logo: Option<Image>)
    ensures var r := FinalLogoOn(c, w, h, t, s, logo);
      c.log <= r.log && |r.log| > |c.log| && r.saved == c.saved &&
      (FamilyOf(t.frameStyle) != RegardCielFamily ==>
         match logo
         case Some(img) => r.log[|r.log| - 1].Picture? && r.log[|r.log| - 1].image == img
         case None => r.log[|r.log| - 1].Text? && r.log[|r.log| - 1].text == "VDS")
  {
    if FamilyOf(t.frameStyle) == RegardCielFamily {
      RegardCielLogoDrawn(c, w, 0.0, logo);
    } else {
      LogoDrawn(c, w, h, s, logo);
    }
  }

  /** Overlay, frame, text and logo only append to the log, the overlay
      first, and keep the save stack. */
  lemma ElementsAppend(c: Canvas, w: real, h: real, t: Template, s: CanvasState, measure: Measure, logo: Option<Image>)
    ensures var r := ElementsOn(c, w, h, t, s, measure, logo);
      c.log <= r.log && |r.log| >= |c.log| + 2 && r.saved == c.saved &&
      r.log[|c.log|] == FillRect(c.style.(fill := OverlayPaint(s.overlayColor, s.overlayOpacity)), 0.0, 0.0, w, h) &&
      (FamilyOf(t.frameStyle) != RegardCielFamily ==>
         match logo
         case Some(img) => r.log[|r.log| - 1].Picture? && r.log[|r.log| - 1].image == img
         case None => r.log[|r.log| - 1].Text? && r.log[|r.log| - 1].text == "VDS")
  {
    var c1 := OverlayOn(c, w, h, s);
    var c2 := FrameOn(c1, t.frameStyle, w, h, s.frameColor);
    var c3 := TextOn(c2, w, h, t, s, measure);
    TextOnAppends(c2, w, h, t, s, measure);
    FinalLogoLast(c3, w, h, t, s, logo);
    var r := FinalLogoOn(c3, w, h, t, s, logo);
    assert r.log[|c.log|] == c1.log[|c.log|];
  }

  /** The state after `renderCanvas`, given what the two loads gave. */
  function RenderOn(c: Canvas, w: real, h: real, t: Template, s: CanvasState, measure: Measure,
                    bg: Option<Image>, logo: Option<Image>): Canvas {
    var c0 := c.(log := c.log + [Clear(0.0, 0.0, w, h)]);
    ElementsOn(BackgroundOn(c0, w, h, bg), w, h, t, s, measure, logo)
  }

  /** The phases of `renderCanvas` in the log: the canvas cleared, the
      background (the image placed by the cover fit, or the gradient over
      the whole canvas), the overlay over the whole canvas in the overlay
      colour, then frame and text; the logo is the last thing drawn, and the
      save stack is as it was. */
  lemma RenderPhases(c: Canvas, w: real, h: real, t: Template, s: CanvasState, measure: Measure,
                     bg: Option<Image>, logo: Option<Image>)
    ensures var r := RenderOn(c, w, h, t, s, measure, bg, logo);
      var n := |c.log|;
      c.log <= r.log && |r.log| >= n + 4 && r.saved == c.saved &&
      r.log[n] == Clear(0.0, 0.0, w, h) &&
      (bg.Some? ==>
         var p := CoverFit(w, h, bg.value);
         r.log[n + 1].Picture? && r.log[n + 1].image == bg.value &&
         Placement(r.log[n + 1].x, r.log[n + 1].y, r.log[n + 1].w, r.log[n + 1].h) == p) &&
      (bg.None? ==>
         r.log[n + 1].FillRect? && r.log[n + 1].style.fill.LinearGradient? &&
         (r.log[n + 1].x, r.log[n + 1].y, r.log[n + 1].w, r.log[n + 1].h) == (0.0, 0.0, w, h)) &&
      r.log[n + 2].FillRect? && r.log[n + 2].style.fill == OverlayPaint(s.overlayColor, s.overlayOpacity) &&
      (r.log[n + 2].x, r.log[n + 2].y, r.log[n + 2].w, r.log[n + 2].h) == (0.0, 0.0, w, h)
    ensures var r := RenderOn(c, w, h, t, s, measure, bg, logo);
      FamilyOf(t.frameStyle) != RegardCielFamily ==>
        match logo
        case Some(img) => r.log[|r.log| - 1].Picture? && r.log[|r.log| - 1].image == img
        case None => r.log[|r.log| - 1].Text? && r.log[|r.log| - 1].text == "VDS"
  {
    var c0 := c.(log := c.log + [Clear(0.0, 0.0, w, h)]);
    var b := BackgroundOn(c0, w, h, bg);
    BackgroundDrawn(c0, w, h, bg);
    ElementsAppend(b, w, h, t, s, measure, logo);
    var r := ElementsOn(b, w, h, t, s, measure, logo);
    assert r.log[|c.log|] == b.log[|c.log|];
    assert r.log[|c.log| + 1] == b.log[|c.log| + 1];
  }

  method DrawElements(ctx: Context, t: Template, s: CanvasState, measure: Measure, logo: Option<Image>)
    modifies ctx
    ensures ctx.State() == ElementsOn(old(ctx.State()), ctx.width, ctx.height, t, s, measure, logo)
  {
    DrawOverlay(ctx, s);
    DrawFrame(ctx, t.frameStyle, s.frameColor);
    DrawTextContent(ctx, t, s, measure);
    if StartsWith(Tag(t.frameStyle), "regard-ciel") {
      DrawRegardCielLogo(ctx, logo);
    } else {
      DrawLogo(ctx, s, logo);
    }
  }

  /** `renderCanvas(ctx, template, state)`: the background is loaded first,
      the logo after the text, both through the cache. */
  method RenderCanvas(ctx: Context, cache: Cache, fetch: Loader, t: Template, s: CanvasState, measure: Measure)
    modifies ctx, cache
    ensures var (bg, afterBg) := CacheLoad(old(cache.entries), BackgroundUrl(s, t), fetch);
      var (logo, afterLogo) := CacheLoad(afterBg, LogoUrl(s), fetch);
      cache.entries == afterLogo &&
      ctx.State() == RenderOn(old(ctx.State()), ctx.width, ctx.height, t, s, measure, bg, logo)
  {
    ctx.ClearRect(0.0, 0.0, ctx.width, ctx.height);
    var bgUrl := BackgroundUrl(s, t);
    var bg := cache.Load(bgUrl, fetch);
    DrawBackground(ctx, bg);
    var logo := cache.Load(LogoUrl(s), fetch);
    DrawElements(ctx, t, s, measure, logo);
  }
}
