/**
 * The layout arithmetic of the renderer (lib/canvas-utils.ts): font
 * resolution, the logo anchor shared by the logo and the frame cutout, the
 * length-to-size tiers of the gospel styles, the line pre-count of the verse
 * style and its bottom-up layout. The canvas is `CANVAS_SIZE` square, 1024.
 */
module Layout {
  import opened Wrappers
  import opened Strings
  import opened Draw
  import opened TextWrap

  const CanvasSize: real := 1024.0

  /** What the editor passes to the renderer (`CanvasState`). */
  datatype CanvasState = CanvasState(
    title: string,
    quote: string,
    author: string,
    backgroundImage: Option<string>,
    customLogo: Option<string>,
    frameColor: string,
    textColor: string,
    overlayColor: string,
    overlayOpacity: int,
    customFontFamily: string,
    fontSizeOffset: int)

  // ---------------------------------------------------------------------------
  // Fonts

  /** `resolveFont(templateFont, customFont)`: `customFont || templateFont`. */
  function ResolveFont(templateFont: string, customFont: string): (r: string)
    ensures customFont != "" ==> r == customFont
    ensures customFont == "" ==> r == templateFont
  {
    if customFont != "" then customFont else templateFont
  }

  /** `resolveSize(templateSize, offset)`: the offset size, never below 8. */
  function ResolveSize(templateSize: int, offset: int): (r: int)
    ensures r >= 8 && r >= templateSize + offset
    ensures r == templateSize + offset || r == 8
  {
    if templateSize + offset > 8 then templateSize + offset else 8
  }

  /** Resolution keeps the order of sizes: a larger template size never
      resolves to a smaller one. */
  lemma ResolveSizeMonotone(a: int, b: int, offset: int)
    requires a <= b
    ensures ResolveSize(a, offset) <= ResolveSize(b, offset)
  {
  }

  const SerifFonts: seq<string> := ["Playfair Display", "Lora", "Merriweather", "Cinzel", "Cormorant Garamond", "Libre Baskerville"]
  const ScriptFonts: seq<string> := ["Dancing Script"]

  /** The generic family `fontFallback` appends; script fonts are tested first. */
  function GenericFamily(font: string): string {
    if font in ScriptFonts then "cursive"
    else if font in SerifFonts then "serif"
    else "sans-serif"
  }

  /** `fontFallback(font)`: the quoted family followed by its generic family. */
  function FontFallback(font: string): string {
    "'" + font + "', " + GenericFamily(font)
  }

  /** Script fonts fall back to `cursive`, the listed serif fonts to `serif`,
      every other font to `sans-serif`. */
  lemma GenericFamilyIff(font: string)
    ensures GenericFamily(font) == "cursive" <==> font in ScriptFonts
    ensures GenericFamily(font) == "serif" <==> font in SerifFonts
    ensures GenericFamily(font) == "sans-serif" <==> font !in ScriptFonts && font !in SerifFonts
  {
    assert "Dancing Script" !in SerifFonts;
  }

  /** The fallback list names the font, quoted, first and its generic family
      last. */
  lemma FontFallbackShape(font: string)
    ensures StartsWith(FontFallback(font), "'" + font + "', ")
    ensures EndsWith(FontFallback(font), GenericFamily(font))
  {
    var r := FontFallback(font);
    assert r[..|"'" + font + "', "|] == "'" + font + "', ";
    assert r[|r| - |GenericFamily(font)|..] == GenericFamily(font);
  }

  /** The text of a family list, as the context receives it. */
  function StackCss(f: FontStack): string {
    match f
    case Plain(css) => css
    case WithFallback(name) => FontFallback(name)
  }

  // ---------------------------------------------------------------------------
  // The logo anchor (`LOGO_CONFIG`, `getLogoPosition`)

  const LogoSize: real := 80.0
  const LogoMarginRight: real := 90.0
  const LogoMarginBottom: real := 70.0
  const LogoShadowBlur: real := 15.0
  const LogoCutoutPadding: real := 15.0

  datatype LogoSpot = LogoSpot(x: real, y: real, size: real, radius: real)

  /** `getLogoPosition(canvas)`: the logo centre, its size, and the radius the
      frame keeps clear around it. */
  function LogoPosition(w: real, h: real): (r: LogoSpot)
    ensures r.x == w - LogoMarginRight && r.y == h - LogoMarginBottom
    ensures r.radius == r.size / 2.0 + LogoCutoutPadding && r.radius == 55.0
  {
    LogoSpot(w - LogoMarginRight, h - LogoMarginBottom, LogoSize, LogoSize / 2.0 + LogoCutoutPadding)
  }

  // ---------------------------------------------------------------------------
  // Length tiers of the gospel styles

  /** A tier: texts longer than `above` characters use this size and line height. */
  datatype Tier = Tier(above: int, fontSize: int, lineHeight: int)

  /** The size and line height of the first tier whose threshold the length
      exceeds, or of `fallback` when it exceeds none. */
  function TierFor(tiers: seq<Tier>, fallback: Tier, length: int): Tier
    decreases |tiers|
  {
    if tiers == [] then fallback
    else if length > tiers[0].above then tiers[0]
    else TierFor(tiers[1..], fallback, length)
  }

  /** The tier found is the fallback or one of the table's, a table tier only
      when the length exceeds its threshold, and the fallback when the length
      exceeds no threshold. */
  lemma {:induction false} TierForSpec(tiers: seq<Tier>, fallback: Tier, length: int)
    ensures var t := TierFor(tiers, fallback, length);
      (t == fallback || t in tiers) && (t != fallback ==> length > t.above)
    ensures (forall k :: 0 <= k < |tiers| ==> length <= tiers[k].above) ==> TierFor(tiers, fallback, length) == fallback
    decreases |tiers|
  {
    if tiers != [] && length <= tiers[0].above {
      TierForSpec(tiers[1..], fallback, length);
      if forall k :: 0 <= k < |tiers| ==> length <= tiers[k].above {
        assert forall k :: 0 <= k < |tiers| - 1 ==> tiers[1..][k] == tiers[k + 1];
      }
    }
  }

  /** Thresholds strictly decreasing, sizes and line heights strictly
      increasing, ending with the fallback's. */
  predicate Descending(tiers: seq<Tier>, fallback: Tier) {
    (forall k :: 0 <= k < |tiers| - 1 ==>
      tiers[k].above > tiers[k + 1].above && tiers[k].fontSize < tiers[k + 1].fontSize
      && tiers[k].lineHeight < tiers[k + 1].lineHeight)
    && (tiers != [] ==>
          tiers[|tiers| - 1].fontSize < fallback.fontSize && tiers[|tiers| - 1].lineHeight < fallback.lineHeight)
  }

  /** In a descending table, a longer text never gets a larger size or line
      height. */
  lemma {:induction false} TierMonotone(tiers: seq<Tier>, fallback: Tier, a: int, b: int)
    requires Descending(tiers, fallback)
    requires a <= b
    ensures TierFor(tiers, fallback, b).fontSize <= TierFor(tiers, fallback, a).fontSize
    ensures TierFor(tiers, fallback, b).lineHeight <= TierFor(tiers, fallback, a).lineHeight
    decreases |tiers|
  {
    if tiers != [] && b <= tiers[0].above {
      assert Descending(tiers[1..], fallback) by {
        assert forall k :: 0 <= k < |tiers| - 2 ==> tiers[1..][k] == tiers[k + 1];
      }
      TierMonotone(tiers[1..], fallback, a, b);
    } else if tiers != [] {
      TierBound(tiers, fallback, a);
    }
  }

  /** No tier of a descending table is larger than its first. */
  lemma {:induction false} TierBound(tiers: seq<Tier>, fallback: Tier, length: int)
    requires Descending(tiers, fallback) && tiers != []
    ensures tiers[0].fontSize <= TierFor(tiers, fallback, length).fontSize
    ensures tiers[0].lineHeight <= TierFor(tiers, fallback, length).lineHeight
    decreases |tiers|
  {
    if length <= tiers[0].above {
      if |tiers| == 1 {
      } else {
        assert Descending(tiers[1..], fallback) by {
          assert forall k :: 0 <= k < |tiers| - 2 ==> tiers[1..][k] == tiers[k + 1];
        }
        TierBound(tiers[1..], fallback, length);
      }
    }
  }

  const VerseTiers: seq<Tier> := [Tier(300, 15, 21), Tier(200, 16, 23), Tier(100, 17, 24)]
  const VerseFallback: Tier := Tier(0, 18, 26)
  const VerseMaxWidth: real := 900.0

  const NarrativeTiers: seq<Tier> := [Tier(1200, 11, 15), Tier(1000, 12, 16), Tier(800, 13, 17),
                                      Tier(600, 14, 19), Tier(400, 15, 21), Tier(200, 16, 23)]
  const NarrativeFallback: Tier := Tier(0, 17, 25)
  const NarrativeMaxWidth: real := 950.0

  /** Both tables are descending. */
  lemma TablesDescending()
    ensures Descending(VerseTiers, VerseFallback)
    ensures Descending(NarrativeTiers, NarrativeFallback)
  {
    VerseTableDescending();
    NarrativeTableDescending();
  }

  lemma VerseTableDescending()
    ensures Descending(VerseTiers, VerseFallback)
  {
  }

  lemma NarrativeTableDescending()
    ensures Descending(NarrativeTiers, NarrativeFallback)
  {
    var t := NarrativeTiers;
    forall k | 0 <= k < |t| - 1
      ensures t[k].above > t[k + 1].above && t[k].fontSize < t[k + 1].fontSize && t[k].lineHeight < t[k + 1].lineHeight
    {
    }
  }

  /** A tier's size after the user's offset: the size is resolved, the line
      height is the offset one but at least three pixels above the size. */
  function Offset(t: Tier, offset: int): (r: (int, int))
    ensures r.0 == ResolveSize(t.fontSize, offset)
    ensures r.1 >= r.0 + 3 && r.1 >= t.lineHeight + offset
    ensures r.1 == r.0 + 3 || r.1 == t.lineHeight + offset
  {
    var size := ResolveSize(t.fontSize, offset);
    (size, if size + 3 > t.lineHeight + offset then size + 3 else t.lineHeight + offset)
  }

  /** The size of the verse text (lib/canvas-utils.ts, `evangile-verset`). */
  method VerseSizing(textLength: int, offset: int) returns (fontSize: int, lineHeight: int)
    ensures (fontSize, lineHeight) == Offset(TierFor(VerseTiers, VerseFallback, textLength), offset)
    ensures fontSize >= 8 && lineHeight >= fontSize + 3
  {
    fontSize := 18;
    lineHeight := 26;
    if textLength > 300 {
      fontSize := 15;
      lineHeight := 21;
    } else if textLength > 200 {
      fontSize := 16;
      lineHeight := 23;
    } else if textLength > 100 {
      fontSize := 17;
      lineHeight := 24;
    }
    fontSize := ResolveSize(fontSize, offset);
    lineHeight := if fontSize + 3 > lineHeight + offset then fontSize + 3 else lineHeight + offset;
  }

  /** The size of the narrative text (lib/canvas-utils.ts, `evangile-narratif`). */
  method NarrativeSizing(textLength: int, offset: int) returns (fontSize: int, lineHeight: int)
    ensures (fontSize, lineHeight) == Offset(TierFor(NarrativeTiers, NarrativeFallback, textLength), offset)
    ensures fontSize >= 8 && lineHeight >= fontSize + 3
  {
    if textLength > 1200 {
      fontSize, lineHeight := 11, 15;
    } else if textLength > 1000 {
      fontSize, lineHeight := 12, 16;
    } else if textLength > 800 {
      fontSize, lineHeight := 13, 17;
    } else if textLength > 600 {
      fontSize, lineHeight := 14, 19;
    } else if textLength > 400 {
      fontSize, lineHeight := 15, 21;
    } else if textLength > 200 {
      fontSize, lineHeight := 16, 23;
    } else {
      fontSize, lineHeight := 17, 25;
    }
    fontSize := ResolveSize(fontSize, offset);
    lineHeight := if fontSize + 3 > lineHeight + offset then fontSize + 3 else lineHeight + offset;
  }

  /** With the offset applied, a longer text still never gets a larger font. */
  lemma SizingMonotone(a: int, b: int, offset: int)
    requires a <= b
    ensures Offset(TierFor(VerseTiers, VerseFallback, b), offset).0 <= Offset(TierFor(VerseTiers, VerseFallback, a), offset).0
    ensures Offset(TierFor(NarrativeTiers, NarrativeFallback, b), offset).0 <= Offset(TierFor(NarrativeTiers, NarrativeFallback, a), offset).0
  {
    TablesDescending();
    TierMonotone(VerseTiers, VerseFallback, a, b);
    TierMonotone(NarrativeTiers, NarrativeFallback, a, b);
    ResolveSizeMonotone(TierFor(VerseTiers, VerseFallback, b).fontSize, TierFor(VerseTiers, VerseFallback, a).fontSize, offset);
    ResolveSizeMonotone(TierFor(NarrativeTiers, NarrativeFallback, b).fontSize, TierFor(NarrativeTiers, NarrativeFallback, a).fontSize, offset);
  }

  /** The verse sizes are 18, 17, 16, 15 above 100, 200, 300 characters, and
      the narrative sizes run from 17 down to 11 above 200 .. 1200. */
  lemma TierValues(length: int)
    ensures TierFor(VerseTiers, VerseFallback, length).fontSize ==
      if length > 300 then 15 else if length > 200 then 16 else if length > 100 then 17 else 18
    ensures 11 <= TierFor(NarrativeTiers, NarrativeFallback, length).fontSize <= 17
    ensures length > 1200 <==> TierFor(NarrativeTiers, NarrativeFallback, length).fontSize == 11
    ensures length <= 200 <==> TierFor(NarrativeTiers, NarrativeFallback, length).fontSize == 17
  {
  }

  // ---------------------------------------------------------------------------
  // The verse line pre-count

  /** The number of lines the pre-count finds: every line `wrapText` would
      commit, except a final line made only of white space. */
  function CountedLines(lines: seq<string>): (n: nat)
    requires lines != []
    ensures n == |lines| || n == |lines| - 1
  {
    if Trim(lines[|lines| - 1]) != "" then |lines| else |lines| - 1
  }

  /** The counting loop before the verse layout: the same greedy wrap as
      `wrapText`, but the break test is `line !== ''` rather than an index
      test, and the last line counts only when it is not blank. */
  method CountVerseLines(text: string, m: Metrics) returns (count: nat)
    ensures count == CountedLines(WrapLines(text, m))
  {
    var words := Split(text, ' ');
    var line := "";
    count := 0;
    ghost var committed: seq<string> := [];
    var i := 0;
    while i < |words|
      invariant 0 <= i <= |words|
      invariant committed + WrapFrom(words, i, line, m) == WrapLines(text, m)
      invariant count == |committed|
      invariant line != "" <==> i > 0
    {
      var testLine := line + words[i] + " ";
      if Overflows(m, testLine) && line != "" {
        count := count + 1;
        committed := committed + [line];
        line := words[i] + " ";
      } else {
        line := testLine;
      }
      i := i + 1;
    }
    if Trim(line) != "" {
      count := count + 1;
    }
  }

  /** Empty text counts no line. */
  lemma EmptyTextCountsNothing(m: Metrics)
    ensures CountedLines(WrapLines("", m)) == 0
  {
    assert Split("", ' ') == [""];
    assert "" + [""][0] + " " == " ";
    assert WrapLines("", m) == WrapFrom([""], 1, " ", m);
    assert Trim(" ") == "" by { TrimEmptyIff(" "); }
  }

  /** The count is zero exactly when the wrap is one blank line: all-space
      text counts nothing as long as its spaces fit on one line. */
  lemma CountZeroIff(text: string, m: Metrics)
    ensures CountedLines(WrapLines(text, m)) == 0 <==>
      |WrapLines(text, m)| == 1 && AllSpace(WrapLines(text, m)[0])
  {
    TrimEmptyIff(WrapLines(text, m)[|WrapLines(text, m)| - 1]);
  }

  // ---------------------------------------------------------------------------
  // The verse layout, from the bottom up

  datatype VerseLayout = VerseLayout(referenceY: real, verseEndY: real, verseStartY: real, titleY: real)

  /** Positions of the reference, the verse block and the title for `count`
      lines of `lineHeight` on a canvas of height `h`. */
  function VersePositions(h: real, count: nat, lineHeight: real): VerseLayout {
    var referenceY := h - 55.0;
    var verseEndY := referenceY - 40.0;
    var verseStartY := verseEndY - (count as real) * lineHeight;
    VerseLayout(referenceY, verseEndY, verseStartY, verseStartY - 90.0)
  }

  /** Title above the verse start, verse start not below its end, verse end
      above the reference, at the distances the layout reserves. */
  lemma VerseOrder(h: real, count: nat, lineHeight: real)
    requires lineHeight >= 0.0
    ensures var v := VersePositions(h, count, lineHeight);
      v.titleY < v.verseStartY <= v.verseEndY < v.referenceY &&
      v.referenceY == h - 55.0 && v.verseEndY == h - 95.0 &&
      v.verseEndY - v.verseStartY == (count as real) * lineHeight &&
      v.verseStartY - v.titleY == 90.0
  {
    assert (count as real) * lineHeight >= 0.0;
  }

  /** `wrapText` centres the verse block on `verseStartY` rather than starting
      it there: with `n` lines the first is drawn `(n - 1) * lineHeight / 2`
      above `verseStartY`, and from `(n - 1) * lineHeight >= 180` on it is at or
      above the title's line. */
  lemma VerseBlockIsCentred(h: real, count: nat, n: nat, lineHeight: real)
    requires n >= 1
    ensures var v := VersePositions(h, count, lineHeight);
      LineY(v.verseStartY, n, 0, lineHeight) == v.verseStartY - ((n as real - 1.0) * lineHeight) / 2.0
    ensures var v := VersePositions(h, count, lineHeight);
      (n as real - 1.0) * lineHeight >= 180.0 ==> LineY(v.verseStartY, n, 0, lineHeight) <= v.titleY
  {
  }

  // ---------------------------------------------------------------------------
  // The fixed positions of the other gospel styles

  /** Where the gospel banner's gradient starts: 45%, 65% or 75% of the height
      for the narrative, verse and simple styles. */
  function BannerStart(h: real, narrative: bool, verse: bool): (y: real)
    ensures narrative ==> y == h * 0.45
    ensures !narrative && verse ==> y == h * 0.65
    ensures !narrative && !verse ==> y == h * 0.75
  {
    if narrative then h * 0.45 else if verse then h * 0.65 else h * 0.75
  }

  /** A larger text style gets a taller banner. */
  lemma BannerOrder(h: real)
    requires h > 0.0
    ensures BannerStart(h, true, false) < BannerStart(h, false, true) < BannerStart(h, false, false) < h
  {
  }

  /** On the 1024 canvas: the simple title at `h - 110` and its reference at
      `h - 60` lie below the start of the simple banner; the verse block's
      end and the reference lie below the start of the verse banner, whatever
      the number of lines; the verse title, which rises with the block, lies
      inside that banner exactly when the block is at most 173.4 high. */
  lemma TextsInBanner(count: nat, lineHeight: real)
    ensures BannerStart(CanvasSize, false, false) < CanvasSize - 110.0 < CanvasSize - 60.0
    ensures var v := VersePositions(CanvasSize, count, lineHeight);
      BannerStart(CanvasSize, false, true) < v.verseEndY < v.referenceY
    ensures var v := VersePositions(CanvasSize, count, lineHeight);
      BannerStart(CanvasSize, false, true) <= v.titleY <==> (count as real) * lineHeight <= 173.4
  {
  }
}
