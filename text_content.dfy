/**
 * The text layouts of the renderer (lib/canvas-utils.ts, `drawTextContent`
 * and the two layouts it hands over to): the default layout (title, rule,
 * wrapped quote, optional author), the "Un Regard au Ciel" layouts above the
 * banner, and the three gospel layouts (simple, verse, narrative). As for
 * the frames, each layout is a method proved against a function of the
 * context state.
 */
module TextContent {
  import opened Strings
  import opened Draw
  import opened TextWrap
  import opened Layout
  import opened Templates

  type Measure = (Font, string) -> real

  /** A font set as `${size}px ${fontFallback(font)}`, with a prefix. */
  function CssFont(variant: string, size: int, font: string): Font {
    Font(variant, size, WithFallback(font))
  }

  const Gold: Paint := Css("rgba(212, 175, 55, 1)")

  /** `if (text) { fillStyle = fill; font = font; fillText(text, x, y) }`. */
  function LineIf(c: Canvas, fill: Paint, font: Font, text: string, x: real, y: real): Canvas {
    if text != "" then Written(WithStyle(c, c.style.(fill := fill, font := font)), text, x, y) else c
  }

  /** `if (text) { fillStyle = fill; font = font; wrapText(text, x, y, …) }`. */
  function BlockIf(c: Canvas, fill: Paint, font: Font, measure: Measure, text: string,
                   x: real, y: real, maxWidth: real, lineHeight: real): Canvas {
    if text != "" then Wrapped(WithStyle(c, c.style.(fill := fill, font := font)), measure, text, x, y, maxWidth, lineHeight)
    else c
  }

  // ---------------------------------------------------------------------------
  // The default layout

  /** The title, centred at 200, and the rule in the frame colour under it. */
  function DefaultHeadingOn(c: Canvas, w: real, t: Template, s: CanvasState): Canvas {
    var titleSize := ResolveSize(t.titleSize, s.fontSizeOffset);
    var c1 := WithStyle(c, c.style.(fill := Css(s.textColor), align := "center", baseline := "middle",
                                    font := CssFont("", titleSize, ResolveFont(t.titleFont, s.customFontFamily))));
    var c2 := Written(c1, s.title, w / 2.0, 200.0);
    RectFilled(WithStyle(c2, c2.style.(fill := Css(s.frameColor))), w / 2.0 - 100.0, 240.0, 200.0, 3.0)
  }

  /** The default layout: the heading, the quote wrapped at 700 around the
      centre with 1.4 times its size between lines, the author line when
      there is an author. */
  function DefaultTextOn(c: Canvas, w: real, h: real, t: Template, s: CanvasState, measure: Measure): Canvas {
    var cx := w / 2.0;
    var quoteSize := ResolveSize(t.quoteSize, s.fontSizeOffset);
    var authorSize := ResolveSize(t.authorSize, s.fontSizeOffset);
    var c3 := DefaultHeadingOn(c, w, t, s);
    var c4 := WithStyle(c3, c3.style.(fill := Css(s.textColor),
                                      font := CssFont("", quoteSize, ResolveFont(t.quoteFont, s.customFontFamily))));
    var c5 := Wrapped(c4, measure, s.quote, cx, h / 2.0, 700.0, (quoteSize as real) * 1.4);
    if s.author != "" then
      Written(WithStyle(c5, c5.style.(font := CssFont("italic", authorSize, ResolveFont(t.authorFont, s.customFontFamily)))),
              "— " + s.author, cx, h - 200.0)
    else c5
  }

  /** The default layout draws the title, the rule under it, one text per
      wrapped line of the quote, and then one more text, the author line,
      exactly when there is an author. */
  lemma DefaultTextCommands(c: Canvas, w: real, h: real, t: Template, s: CanvasState, measure: Measure)
    ensures var r := DefaultTextOn(c, w, h, t, s, measure);
      var quoteSize := ResolveSize(t.quoteSize, s.fontSizeOffset);
      var n := |WrapLines(s.quote, Metrics(measure, CssFont("", quoteSize, ResolveFont(t.quoteFont, s.customFontFamily)), 700.0))|;
      c.log <= r.log &&
      |r.log| == |c.log| + 2 + n + (if s.author != "" then 1 else 0) &&
      r.log[|c.log|].Text? && r.log[|c.log|].text == s.title && r.log[|c.log|].at == Point(w / 2.0, 200.0) &&
      r.log[|c.log| + 1].FillRect? &&
      (s.author != "" ==> r.log[|r.log| - 1].Text? && r.log[|r.log| - 1].text == "— " + s.author)
  {
  }

  /** Every text of the default layout is centred and at least 8 pixels high,
      whatever the offset. */
  lemma DefaultTextReadable(c: Canvas, w: real, h: real, t: Template, s: CanvasState, measure: Measure)
    ensures var r := DefaultTextOn(c, w, h, t, s, measure);
      c.log <= r.log &&
      forall k :: |c.log| <= k < |r.log| && r.log[k].Text? ==>
        r.log[k].style.font.size >= 8 && r.log[k].style.align == "center"
  {
    var r := DefaultTextOn(c, w, h, t, s, measure);
    forall k | |c.log| <= k < |r.log| && r.log[k].Text?
      ensures r.log[k].style.font.size >= 8 && r.log[k].style.align == "center"
    {
    }
  }

  // ---------------------------------------------------------------------------
  // "Un Regard au Ciel": texts above the banner, with a shadow

  const BannerHeight: real := 100.0

  function Shadowed(st: Style, color: string, blur: real): Style {
    st.(shadowColor := color, shadowBlur := blur, shadowOffsetX := 2.0, shadowOffsetY := 2.0)
  }

  function Unshadowed(c: Canvas): Canvas {
    WithStyle(c, c.style.(shadowColor := "transparent", shadowBlur := 0.0))
  }

  /** `regard-ciel-nom`: the saint's name above the banner, when there is one. */
  function NomTextOn(c: Canvas, w: real, h: real, t: Template, s: CanvasState): Canvas {
    if s.title != "" then
      var c1 := WithStyle(c, Shadowed(c.style.(fill := Css("#ffffff"),
        font := CssFont("bold", ResolveSize(t.titleSize, s.fontSizeOffset), ResolveFont(t.titleFont, s.customFontFamily)),
        align := "center", baseline := "middle"), "rgba(0, 0, 0, 0.8)", 10.0));
      Unshadowed(Written(c1, s.title, w / 2.0, h - BannerHeight - 60.0))
    else c
  }

  /** `regard-ciel-citation`: the quote in quotation marks, wrapped around a
      line 120 above the banner, and the author 40 above it. */
  function CitationTextOn(c: Canvas, w: real, h: real, t: Template, s: CanvasState, measure: Measure): Canvas {
    var cx := w / 2.0;
    var quoteSize := ResolveSize(t.quoteSize, s.fontSizeOffset);
    var c1 := WithStyle(c, Shadowed(c.style.(align := "center", baseline := "middle"), "rgba(0, 0, 0, 0.8)", 10.0));
    var c2 := BlockIf(c1, Css("#ffffff"), CssFont("italic", quoteSize, ResolveFont(t.quoteFont, s.customFontFamily)), measure,
                      if s.quote != "" then "\"" + s.quote + "\"" else "",
                      cx, h - BannerHeight - 120.0, 800.0, (quoteSize as real) * 1.3);
    var c3 := LineIf(c2, Css("#ffd60a"),
                     CssFont("bold", ResolveSize(t.authorSize, s.fontSizeOffset), ResolveFont(t.authorFont, s.customFontFamily)),
                     if s.author != "" then "— " + s.author else "", cx, h - BannerHeight - 40.0);
    Unshadowed(c3)
  }

  /** `drawRegardCielText`: the plain style (and any other tag of the family)
      adds no text. */
  function RegardCielTextOn(c: Canvas, w: real, h: real, t: Template, s: CanvasState, measure: Measure): Canvas {
    match t.frameStyle
    case RegardCielNom => NomTextOn(c, w, h, t, s)
    case RegardCielCitation => CitationTextOn(c, w, h, t, s, measure)
    case _ => c
  }

  // ---------------------------------------------------------------------------
  // "L'Évangile Illustré"

  /** The common shape of the three gospel layouts: a white title, an
      optional wrapped body, a gold reference, then the shadow is switched
      off. */
  function GospelTexts(c: Canvas, cx: real, measure: Measure,
                       title: string, titleFont: Font, titleY: real,
                       body: string, bodyFill: Paint, bodyFont: Font, bodyY: real, maxWidth: real, lineHeight: real,
                       reference: string, refFont: Font, refY: real): (r: Canvas)
    ensures AddsTexts(c, r)
  {
    var c1 := LineIf(c, Css("#ffffff"), titleFont, title, cx, titleY);
    var c2 := BlockIf(c1, bodyFill, bodyFont, measure, body, cx, bodyY, maxWidth, lineHeight);
    AddsTextsTrans(c, c1, c2);
    Unshadowed(LineIf(c2, Gold, refFont, reference, cx, refY))
  }

  /** The gospel layouts only add texts, the title first and the reference
      last, each at its own position and in its own font. */
  lemma GospelTextsOrder(c: Canvas, cx: real, measure: Measure,
                         title: string, titleFont: Font, titleY: real,
                         body: string, bodyFill: Paint, bodyFont: Font, bodyY: real, maxWidth: real, lineHeight: real,
                         reference: string, refFont: Font, refY: real)
    ensures var r := GospelTexts(c, cx, measure, title, titleFont, titleY, body, bodyFill, bodyFont, bodyY, maxWidth, lineHeight, reference, refFont, refY);
      c.log <= r.log &&
      (forall k :: |c.log| <= k < |r.log| ==> r.log[k].Text?) &&
      (title != "" ==>
         |r.log| > |c.log| && r.log[|c.log|].text == title &&
         r.log[|c.log|].at == Point(cx, titleY) && r.log[|c.log|].style.font == titleFont) &&
      (reference != "" ==>
         |r.log| > |c.log| && r.log[|r.log| - 1].text == reference &&
         r.log[|r.log| - 1].at == Point(cx, refY) && r.log[|r.log| - 1].style.font == refFont) &&
      (title == "" && body == "" && reference == "" ==> r.log == c.log)
  {
    var c1 := LineIf(c, Css("#ffffff"), titleFont, title, cx, titleY);
    var c2 := BlockIf(c1, bodyFill, bodyFont, measure, body, cx, bodyY, maxWidth, lineHeight);
    var c3 := LineIf(c2, Gold, refFont, reference, cx, refY);
    assert c1.log <= c2.log;
    assert forall k :: |c1.log| <= k < |c2.log| ==> c2.log[k].Text?;
    assert forall k :: |c.log| <= k < |c2.log| ==> c2.log[k].Text? by {
      forall k | |c.log| <= k < |c2.log| ensures c2.log[k].Text? {
        if k >= |c1.log| {
        } else {
          assert c2.log[k] == c1.log[k];
        }
      }
    }
    if title != "" {
      assert c2.log[|c.log|] == c1.log[|c.log|];
    }
  }

  /** The verse layout: sizes from the length tiers, the line pre-count in the
      verse font (which stays the current font), and the positions from the
      bottom up. */
  function VerseTextOn(c: Canvas, w: real, h: real, t: Template, s: CanvasState, measure: Measure): Canvas {
    var off := s.fontSizeOffset;
    var sizes := Offset(TierFor(VerseTiers, VerseFallback, |s.quote|), off);
    var verseFont := CssFont("italic", sizes.0, ResolveFont(t.quoteFont, s.customFontFamily));
    var count := CountedLines(WrapLines(s.quote, Metrics(measure, verseFont, VerseMaxWidth)));
    var v := VersePositions(h, count, sizes.1 as real);
    var titleFont := ResolveFont("Playfair Display", s.customFontFamily);
    GospelTexts(WithStyle(c, c.style.(font := verseFont)), w / 2.0, measure,
                s.title, CssFont("bold", ResolveSize(24, off), titleFont), v.titleY,
                s.quote, Css("rgba(255, 255, 255, 0.95)"), verseFont, v.verseStartY, VerseMaxWidth, sizes.1 as real,
                s.author, CssFont("italic", ResolveSize(22, off), titleFont), v.referenceY)
  }

  /** The narrative layout: fixed title and text positions, the full text in
      the body font at the tier size, the reference at the bottom. */
  function NarrativeTextOn(c: Canvas, w: real, h: real, t: Template, s: CanvasState, measure: Measure): Canvas {
    var off := s.fontSizeOffset;
    var sizes := Offset(TierFor(NarrativeTiers, NarrativeFallback, |s.quote|), off);
    var titleFont := ResolveFont("Playfair Display", s.customFontFamily);
    GospelTexts(c, w / 2.0, measure,
                s.title, CssFont("bold", ResolveSize(22, off), titleFont), h * 0.38,
                s.quote, Css("rgba(255, 255, 255, 0.92)"), CssFont("", sizes.0, ResolveFont("Inter", s.customFontFamily)),
                h * 0.46, NarrativeMaxWidth, sizes.1 as real,
                s.author, CssFont("italic", ResolveSize(20, off), titleFont), h - 45.0)
  }

  /** The simple layout: a title and a reference, no body. */
  function SimpleTextOn(c: Canvas, w: real, h: real, s: CanvasState, measure: Measure): Canvas {
    var off := s.fontSizeOffset;
    var titleFont := ResolveFont("Playfair Display", s.customFontFamily);
    var titleCss := CssFont("bold", ResolveSize(32, off), titleFont);
    GospelTexts(c, w / 2.0, measure,
                s.title, titleCss, h - 110.0,
                "", Css("#ffffff"), titleCss, 0.0, 0.0, 0.0,
                s.author, CssFont("italic", ResolveSize(24, off), titleFont), h - 60.0)
  }

  /** `drawEvangileText`: centred, top-aligned text under a strong shadow,
      then the layout of the style; a style of the family that is none of
      the three draws nothing and leaves the shadow on. */
  function EvangileTextOn(c: Canvas, w: real, h: real, t: Template, s: CanvasState, measure: Measure): Canvas {
    var c1 := WithStyle(c, Shadowed(c.style.(align := "center", baseline := "top"), "rgba(0, 0, 0, 1)", 12.0));
    match t.frameStyle
    case EvangileSimple => SimpleTextOn(c1, w, h, s, measure)
    case EvangileVerset => VerseTextOn(c1, w, h, t, s, measure)
    case EvangileNarratif => NarrativeTextOn(c1, w, h, t, s, measure)
    case _ => c1
  }

  /** `drawTextContent`: the two families are recognised by the prefix of
      the tag, the default layout takes every other style. */
  function TextOn(c: Canvas, w: real, h: real, t: Template, s: CanvasState, measure: Measure): Canvas {
    match FamilyOf(t.frameStyle)
    case RegardCielFamily => RegardCielTextOn(c, w, h, t, s, measure)
    case EvangileFamily => EvangileTextOn(c, w, h, t, s, measure)
    case DefaultFamily => DefaultTextOn(c, w, h, t, s, measure)
  }

  /** The verse layout, as drawn: the title at the top of the layout that
      the pre-count of the verse reserves (in its own font), above the verse
      block, which ends above the reference, drawn 55 above the bottom; the
      line height is at least 3 more than the font size. */
  lemma VerseLayoutDrawn(c: Canvas, w: real, h: real, t: Template, s: CanvasState, measure: Measure)
    requires s.title != "" && s.author != ""
    ensures var sizes := Offset(TierFor(VerseTiers, VerseFallback, |s.quote|), s.fontSizeOffset);
      var count := CountedLines(WrapLines(s.quote, Metrics(measure,
        CssFont("italic", sizes.0, ResolveFont(t.quoteFont, s.customFontFamily)), VerseMaxWidth)));
      var v := VersePositions(h, count, sizes.1 as real);
      var r := VerseTextOn(c, w, h, t, s, measure);
      c.log <= r.log && |r.log| > |c.log| &&
      r.log[|c.log|].text == s.title && r.log[|c.log|].at == Point(w / 2.0, v.titleY) &&
      r.log[|r.log| - 1].text == s.author && r.log[|r.log| - 1].at == Point(w / 2.0, h - 55.0) &&
      v.titleY < v.verseStartY <= v.verseEndY < v.referenceY &&
      sizes.1 >= sizes.0 + 3
  {
    var off := s.fontSizeOffset;
    var sizes := Offset(TierFor(VerseTiers, VerseFallback, |s.quote|), off);
    var verseFont := CssFont("italic", sizes.0, ResolveFont(t.quoteFont, s.customFontFamily));
    var count := CountedLines(WrapLines(s.quote, Metrics(measure, verseFont, VerseMaxWidth)));
    var v := VersePositions(h, count, sizes.1 as real);
    var titleFont := ResolveFont("Playfair Display", s.customFontFamily);
    VerseOrder(h, count, sizes.1 as real);
    GospelTextsOrder(WithStyle(c, c.style.(font := verseFont)), w / 2.0, measure,
                s.title, CssFont("bold", ResolveSize(24, off), titleFont), v.titleY,
                s.quote, Css("rgba(255, 255, 255, 0.95)"), verseFont, v.verseStartY, VerseMaxWidth, sizes.1 as real,
                s.author, CssFont("italic", ResolveSize(22, off), titleFont), v.referenceY);
  }

  /** Each layout of the two families switches the shadow off when it is done,
      except a gospel tag that is none of the three known ones: the strong
      shadow set up front is then left on the context. */
  lemma ShadowSwitchedOff(c: Canvas, w: real, h: real, t: Template, s: CanvasState, measure: Measure)
    ensures var r := TextOn(c, w, h, t, s, measure);
      (t.frameStyle == RegardCielCitation || (t.frameStyle == RegardCielNom && s.title != "") ||
       t.frameStyle in {EvangileSimple, EvangileVerset, EvangileNarratif}) ==>
        r.style.shadowColor == "transparent" && r.style.shadowBlur == 0.0
    ensures var r := TextOn(c, w, h, t, s, measure);
      t.frameStyle.Unlisted? && FamilyOf(t.frameStyle) == EvangileFamily ==>
        r.log == c.log && r.style.shadowColor == "rgba(0, 0, 0, 1)" && r.style.shadowBlur == 12.0
  {
    FamiliesOfStyles(t.frameStyle);
  }

  /** The quote and signature of the citation style: the author line comes
      last, in yellow, 40 above the banner. */
  lemma CitationAuthorLast(c: Canvas, w: real, h: real, t: Template, s: CanvasState, measure: Measure)
    requires t.frameStyle == RegardCielCitation && s.author != ""
    ensures var r := RegardCielTextOn(c, w, h, t, s, measure);
      c.log <= r.log && |r.log| > |c.log| &&
      r.log[|r.log| - 1] == Text(r.log[|r.log| - 1].style, "— " + s.author, Point(w / 2.0, h - BannerHeight - 40.0)) &&
      r.log[|r.log| - 1].style.fill == Css("#ffd60a")
  {
  }

  /** `r` is `c` with texts appended and nothing else: same path, same save
      stack, the old log kept as a prefix. */
  predicate AddsTexts(c: Canvas, r: Canvas) {
    r.path == c.path && r.saved == c.saved && c.log <= r.log &&
    forall k :: |c.log| <= k < |r.log| ==> r.log[k].Text?
  }

  lemma {:induction false} AddsTextsTrans(a: Canvas, b: Canvas, c: Canvas)
    requires AddsTexts(a, b) && AddsTexts(b, c)
    ensures AddsTexts(a, c)
  {
    forall k | |a.log| <= k < |c.log|
      ensures c.log[k].Text?
    {
      if k < |b.log| {
        assert c.log[k] == b.log[k];
      }
    }
  }

  lemma RegardCielAddsTexts(c: Canvas, w: real, h: real, t: Template, s: CanvasState, measure: Measure)
    ensures AddsTexts(c, RegardCielTextOn(c, w, h, t, s, measure))
  {
    if t.frameStyle == RegardCielCitation {
      var cx := w / 2.0;
      var quoteSize := ResolveSize(t.quoteSize, s.fontSizeOffset);
      var c1 := WithStyle(c, Shadowed(c.style.(align := "center", baseline := "middle"), "rgba(0, 0, 0, 0.8)", 10.0));
      var c2 := BlockIf(c1, Css("#ffffff"), CssFont("italic", quoteSize, ResolveFont(t.quoteFont, s.customFontFamily)), measure,
                        if s.quote != "" then "\"" + s.quote + "\"" else "",
                        cx, h - BannerHeight - 120.0, 800.0, (quoteSize as real) * 1.3);
      var c3 := LineIf(c2, Css("#ffd60a"),
                       CssFont("bold", ResolveSize(t.authorSize, s.fontSizeOffset), ResolveFont(t.authorFont, s.customFontFamily)),
                       if s.author != "" then "— " + s.author else "", cx, h - BannerHeight - 40.0);
      assert AddsTexts(c, c2);
      assert AddsTexts(c2, c3);
      AddsTextsTrans(c, c2, c3);
    }
  }




  /** The text layouts only write texts: they keep the path and the save
      stack, and every command they add is a text, except the rule under
      the title of the default layout, its second command. */
  lemma TextOnAppends(c: Canvas, w: real, h: real, t: Template, s: CanvasState, measure: Measure)
    ensures var r := TextOn(c, w, h, t, s, measure);
      r.path == c.path && r.saved == c.saved && c.log <= r.log &&
      forall k :: |c.log| <= k < |r.log| ==>
        r.log[k].Text? || (FamilyOf(t.frameStyle) == DefaultFamily && k == |c.log| + 1 && r.log[k].FillRect?)
  {
    match FamilyOf(t.frameStyle)
    case RegardCielFamily => RegardCielAddsTexts(c, w, h, t, s, measure);
    case EvangileFamily =>
    case DefaultFamily =>
      var c3 := DefaultHeadingOn(c, w, t, s);
      var r := DefaultTextOn(c, w, h, t, s, measure);
      assert AddsTexts(c3, r);
      assert |c3.log| == |c.log| + 2;
      forall k | |c.log| <= k < |r.log|
        ensures r.log[k].Text? || (k == |c.log| + 1 && r.log[k].FillRect?)
      {
        if k < |c3.log| {
          assert r.log[k] == c3.log[k];
        }
      }
  }

  // ---------------------------------------------------------------------------
  // The drawing methods

  /** `if (text) { fillStyle = …; font = …; fillText(…) }` on the context. */
  method DrawLineIf(ctx: Context, fill: Paint, font: Font, text: string, x: real, y: real)
    modifies ctx
    ensures ctx.State() == LineIf(old(ctx.State()), fill, font, text, x, y)
  {
    if text != "" {
      ctx.style := ctx.style.(fill := fill);
      ctx.style := ctx.style.(font := font);
      ctx.FillText(text, x, y);
    }
  }

  /** `if (text) { fillStyle = …; font = …; wrapText(…) }` on the context. */
  method DrawBlockIf(ctx: Context, fill: Paint, font: Font, measure: Measure, text: string,
                     x: real, y: real, maxWidth: real, lineHeight: real)
    modifies ctx
    ensures ctx.State() == BlockIf(old(ctx.State()), fill, font, measure, text, x, y, maxWidth, lineHeight)
  {
    if text != "" {
      ctx.style := ctx.style.(fill := fill);
      ctx.style := ctx.style.(font := font);
      WrapText(ctx, measure, text, x, y, maxWidth, lineHeight);
    }
  }

  /** The first half of the default layout: the title and the rule. */
  method DrawDefaultHeading(ctx: Context, t: Template, s: CanvasState)
    modifies ctx
    ensures ctx.State() == DefaultHeadingOn(old(ctx.State()), ctx.width, t, s)
  {
    ctx.style := ctx.style.(fill := Css(s.textColor), align := "center", baseline := "middle");
    var cx := ctx.width / 2.0;
    var titleSize := ResolveSize(t.titleSize, s.fontSizeOffset);
    ctx.style := ctx.style.(font := CssFont("", titleSize, ResolveFont(t.titleFont, s.customFontFamily)));
    ctx.FillText(s.title, cx, 200.0);
    ctx.style := ctx.style.(fill := Css(s.frameColor));
    ctx.FillRect(cx - 100.0, 240.0, 200.0, 3.0);
  }

  method DrawDefaultText(ctx: Context, t: Template, s: CanvasState, measure: Measure)
    modifies ctx
    ensures ctx.State() == DefaultTextOn(old(ctx.State()), ctx.width, ctx.height, t, s, measure)
  {
    DrawDefaultHeading(ctx, t, s);
    var cx := ctx.width / 2.0;
    var cy := ctx.height / 2.0;
    var quoteSize := ResolveSize(t.quoteSize, s.fontSizeOffset);
    var authorSize := ResolveSize(t.authorSize, s.fontSizeOffset);
    ctx.style := ctx.style.(fill := Css(s.textColor), font := CssFont("", quoteSize, ResolveFont(t.quoteFont, s.customFontFamily)));
    WrapText(ctx, measure, s.quote, cx, cy, 700.0, (quoteSize as real) * 1.4);
    if s.author != "" {
      ctx.style := ctx.style.(font := CssFont("italic", authorSize, ResolveFont(t.authorFont, s.customFontFamily)));
      ctx.FillText("— " + s.author, cx, ctx.height - 200.0);
    }
  }

  method DrawNomText(ctx: Context, t: Template, s: CanvasState)
    modifies ctx
    ensures ctx.State() == NomTextOn(old(ctx.State()), ctx.width, ctx.height, t, s)
  {
    if s.title != "" {
      ctx.style := ctx.style.(fill := Css("#ffffff"));
      ctx.style := ctx.style.(font := CssFont("bold", ResolveSize(t.titleSize, s.fontSizeOffset), ResolveFont(t.titleFont, s.customFontFamily)));
      ctx.style := ctx.style.(align := "center", baseline := "middle");
      ctx.style := ctx.style.(shadowColor := "rgba(0, 0, 0, 0.8)", shadowBlur := 10.0);
      ctx.style := ctx.style.(shadowOffsetX := 2.0, shadowOffsetY := 2.0);
      ctx.FillText(s.title, ctx.width / 2.0, ctx.height - BannerHeight - 60.0);
      ctx.style := ctx.style.(shadowColor := "transparent", shadowBlur := 0.0);
    }
  }

  method DrawCitationText(ctx: Context, t: Template, s: CanvasState, measure: Measure)
    modifies ctx
    ensures ctx.State() == CitationTextOn(old(ctx.State()), ctx.width, ctx.height, t, s, measure)
  {
    var cx := ctx.width / 2.0;
    var quoteSize := ResolveSize(t.quoteSize, s.fontSizeOffset);
    ctx.style := ctx.style.(align := "center", baseline := "middle");
    ctx.style := ctx.style.(shadowColor := "rgba(0, 0, 0, 0.8)", shadowBlur := 10.0,
                            shadowOffsetX := 2.0, shadowOffsetY := 2.0);
    DrawBlockIf(ctx, Css("#ffffff"), CssFont("italic", quoteSize, ResolveFont(t.quoteFont, s.customFontFamily)), measure,
                if s.quote != "" then "\"" + s.quote + "\"" else "",
                cx, ctx.height - BannerHeight - 120.0, 800.0, (quoteSize as real) * 1.3);
    DrawLineIf(ctx, Css("#ffd60a"),
               CssFont("bold", ResolveSize(t.authorSize, s.fontSizeOffset), ResolveFont(t.authorFont, s.customFontFamily)),
               if s.author != "" then "— " + s.author else "", cx, ctx.height - BannerHeight - 40.0);
    ctx.style := ctx.style.(shadowColor := "transparent", shadowBlur := 0.0);
  }

  method DrawRegardCielText(ctx: Context, t: Template, s: CanvasState, measure: Measure)
    modifies ctx
    ensures ctx.State() == RegardCielTextOn(old(ctx.State()), ctx.width, ctx.height, t, s, measure)
  {
    match t.frameStyle {
      case RegardCielNom => DrawNomText(ctx, t, s);
      case RegardCielCitation => DrawCitationText(ctx, t, s, measure);
      case _ =>
    }
  }

  /** The statements the three gospel layouts share: the title, the body,
      the reference, each only when it is not empty, then the shadow off. */
  method DrawGospelTexts(ctx: Context, cx: real, measure: Measure,
                         title: string, titleFont: Font, titleY: real,
                         body: string, bodyFill: Paint, bodyFont: Font, bodyY: real, maxWidth: real, lineHeight: real,
                         reference: string, refFont: Font, refY: real)
    modifies ctx
    ensures ctx.State() == GospelTexts(old(ctx.State()), cx, measure, title, titleFont, titleY,
                                       body, bodyFill, bodyFont, bodyY, maxWidth, lineHeight, reference, refFont, refY)
  {
    DrawLineIf(ctx, Css("#ffffff"), titleFont, title, cx, titleY);
    DrawBlockIf(ctx, bodyFill, bodyFont, measure, body, cx, bodyY, maxWidth, lineHeight);
    DrawLineIf(ctx, Gold, refFont, reference, cx, refY);
    ctx.style := ctx.style.(shadowColor := "transparent", shadowBlur := 0.0);
  }

  method DrawSimpleText(ctx: Context, s: CanvasState, measure: Measure)
    modifies ctx
    ensures ctx.State() == SimpleTextOn(old(ctx.State()), ctx.width, ctx.height, s, measure)
  {
    var off := s.fontSizeOffset;
    var titleFont := ResolveFont("Playfair Display", s.customFontFamily);
    var titleCss := CssFont("bold", ResolveSize(32, off), titleFont);
    DrawGospelTexts(ctx, ctx.width / 2.0, measure,
                    s.title, titleCss, ctx.height - 110.0,
                    "", Css("#ffffff"), titleCss, 0.0, 0.0, 0.0,
                    s.author, CssFont("italic", ResolveSize(24, off), titleFont), ctx.height - 60.0);
  }

  method DrawVerseText(ctx: Context, t: Template, s: CanvasState, measure: Measure)
    modifies ctx
    ensures ctx.State() == VerseTextOn(old(ctx.State()), ctx.width, ctx.height, t, s, measure)
  {
    var off := s.fontSizeOffset;
    var titleFont := ResolveFont("Playfair Display", s.customFontFamily);
    var text := s.quote;
    var fontSize, lineHeight := VerseSizing(|text|, off);
    var verseFont := CssFont("italic", fontSize, ResolveFont(t.quoteFont, s.customFontFamily));
    ctx.style := ctx.style.(font := verseFont);
    var count := CountVerseLines(text, Metrics(measure, ctx.style.font, VerseMaxWidth));
    var v := VersePositions(ctx.height, count, lineHeight as real);
    DrawGospelTexts(ctx, ctx.width / 2.0, measure,
                    s.title, CssFont("bold", ResolveSize(24, off), titleFont), v.titleY,
                    text, Css("rgba(255, 255, 255, 0.95)"), verseFont, v.verseStartY, VerseMaxWidth, lineHeight as real,
                    s.author, CssFont("italic", ResolveSize(22, off), titleFont), v.referenceY);
  }

  method DrawNarrativeText(ctx: Context, t: Template, s: CanvasState, measure: Measure)
    modifies ctx
    ensures ctx.State() == NarrativeTextOn(old(ctx.State()), ctx.width, ctx.height, t, s, measure)
  {
    var off := s.fontSizeOffset;
    var titleFont := ResolveFont("Playfair Display", s.customFontFamily);
    var text := s.quote;
    var fontSize, lineHeight := NarrativeSizing(|text|, off);
    var titleY := ctx.height * 0.38;
    var textStartY := ctx.height * 0.46;
    var bodyFont := CssFont("", fontSize, ResolveFont("Inter", s.customFontFamily));
    DrawGospelTexts(ctx, ctx.width / 2.0, measure,
                    s.title, CssFont("bold", ResolveSize(22, off), titleFont), titleY,
                    text, Css("rgba(255, 255, 255, 0.92)"), bodyFont, textStartY, NarrativeMaxWidth, lineHeight as real,
                    s.author, CssFont("italic", ResolveSize(20, off), titleFont), ctx.height - 45.0);
  }

  /** `drawEvangileText`: the strong shadow is set first, then the layout of
      the style is drawn; each returns as soon as it is done. */
  method DrawEvangileText(ctx: Context, t: Template, s: CanvasState, measure: Measure)
    modifies ctx
    ensures ctx.State() == EvangileTextOn(old(ctx.State()), ctx.width, ctx.height, t, s, measure)
  {
    ctx.style := ctx.style.(align := "center", baseline := "top");
    ctx.style := ctx.style.(shadowColor := "rgba(0, 0, 0, 1)", shadowBlur := 12.0);
    ctx.style := ctx.style.(shadowOffsetX := 2.0, shadowOffsetY := 2.0);
    if t.frameStyle == EvangileSimple {
      DrawSimpleText(ctx, s, measure);
      return;
    }
    if t.frameStyle == EvangileVerset {
      DrawVerseText(ctx, t, s, measure);
      return;
    }
    if t.frameStyle == EvangileNarratif {
      DrawNarrativeText(ctx, t, s, measure);
      return;
    }
  }

  /** `drawTextContent`. */
  method DrawTextContent(ctx: Context, t: Template, s: CanvasState, measure: Measure)
    modifies ctx
    ensures ctx.State() == TextOn(old(ctx.State()), ctx.width, ctx.height, t, s, measure)
  {
    if StartsWith(Tag(t.frameStyle), "regard-ciel") {
      DrawRegardCielText(ctx, t, s, measure);
      return;
    }
    if StartsWith(Tag(t.frameStyle), "evangile") {
      DrawEvangileText(ctx, t, s, measure);
      return;
    }
    DrawDefaultText(ctx, t, s, measure);
  }
}
