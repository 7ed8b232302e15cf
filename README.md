# VDS-Montage quote-card renderer, modelled in Dafny

VDS-Montage composes square quote cards: a background photograph, a coloured
overlay, a decorative frame, a title, a wrapped quote, an author line and a
logo, drawn on a 1024 × 1024 canvas. This project models the decision and
layout code of the application:

- the Next.js renderer in `lib/canvas-utils.ts`, with its helpers in
  `lib/utils.ts`: font resolution, the logo anchor and the frame path that
  cuts round it, the frame and text dispatch on the frame-style tag, the
  gospel layouts with their size tiers and line pre-count, and the render
  order with its gradient fallback;
- the greedy word wrap, the `#rrggbb` parser and the image cache;
- the editor store of `lib/store.ts` and the template catalog and gallery of
  `lib/templates.ts`;
- the older vanilla-JavaScript renderer in `js/canvas.js` and its state and
  catalog in `js/templates.js`;
- the text processing of the gospel-of-the-day route
  `app/api/evangile/route.ts`: reading selection, HTML clean-up, removal of
  the liturgical ending, extraction and truncation of the short verse, and the
  defaults of the response.

The browser's 2D context is `Draw.Context`. It is a class whose fields are the
drawing style, the current path, the `save()` stack and the log of commands
drawn so far. Each drawing routine of the source is a method on that context.
The method's `ensures` says that the new state is a pure function of the old
one, and the lemmas state what those functions draw: what is drawn, in which
order, where, and what it keeps clear. Text width (`measureText`) and image
loading are function parameters.

Modules: `Wrappers` (Option, Result), `Strings` (JavaScript `split`, `trim`,
`startsWith`), `Draw`, `TextWrap`, `HexColor`, `ImageCache`, `Templates`,
`Store`, `LegacyState`, `Layout`, `Frames`, `TextContent`, `Render`,
`LegacyCanvas`, `GospelRoute`.

## Model

| member | source | states |
|---|---|---|
| Layout.ResolveFont | lib/canvas-utils.ts:21-23 | the custom font when it is non-empty, the template font otherwise |
| Layout.ResolveSize | lib/canvas-utils.ts:26-28 | the result is at least 8, and it is `size + offset` or 8, whichever is larger |
| Layout.ResolveSizeMonotone | lib/canvas-utils.ts:26-28 | resolution keeps the order of sizes under the same offset |
| Layout.GenericFamilyIff | lib/canvas-utils.ts:31-37 | `cursive` exactly for the script font, `serif` exactly for the listed serif fonts, `sans-serif` exactly for every other font |
| Layout.FontFallbackShape | lib/canvas-utils.ts:31-37 | the font stack starts with the quoted font and ends with its generic family |
| Layout.LogoPosition | lib/canvas-utils.ts:673-690 | the logo centre is (w − 90, h − 70) and the radius kept clear is size/2 + 15 = 55 |
| Frames.LogoBox | lib/canvas-utils.ts:694-719 | the logo image is the 80-square centred on the logo anchor: (w−130, h−110)–(w−50, h−30) |
| Frames.CutoutPath | lib/canvas-utils.ts:188-241 | the notched path has ten segments and starts and ends at (margin, margin) |
| Frames.NotchInside | lib/canvas-utils.ts:195-238 | the notch corner is (logo.x − (radius+10), logo.y − (radius+10)) = (w−155, h−135); for margins up to 95 it lies strictly inside the frame rectangle; the pieces round the notch run forward |
| Frames.CutoutClearsLogo | lib/canvas-utils.ts:188-241 | every segment of the notched path stays apart from the logo image, with up to 5 pixels of pen width to spare |
| Frames.CutoutSidesApart | lib/canvas-utils.ts:211-238 | the four straight sides of the notched rectangle miss the logo image |
| Frames.CutoutNotchApart | lib/canvas-utils.ts:200-232 | the five pieces of the notch miss the logo image |
| Frames.DotsOn | lib/canvas-utils.ts:256-271 | one filled dot of radius 8 per position, in order, in the frame colour; the style and save stack are unchanged afterwards |
| Frames.DotsOnSnoc | lib/canvas-utils.ts:263-271 | drawing the dots one by one extends the sequence by one dot |
| Frames.FrameOn | lib/canvas-utils.ts:104-135 | a frame only appends to the log and keeps the save stack |
| Frames.UnlistedIsElegant | lib/canvas-utils.ts:132-134 | a tag the dispatcher does not name draws exactly the elegant frame |
| Frames.CircularClearsLogo | lib/canvas-utils.ts:137-147 | both circles miss the logo image on the 1024 canvas |
| Frames.CornersClearLogo | lib/canvas-utils.ts:159-185 | the three corner decorations of the geometric frame miss the logo image |
| Frames.GeometricClearsLogo | lib/canvas-utils.ts:149-163 | the geometric frame draws four strokes, the notched rectangle and three corners, all clear of the logo |
| Frames.OrnateClearsLogo | lib/canvas-utils.ts:243-272 | the ornate frame draws five commands, none touching the logo image |
| Frames.DotsClearLogo | lib/canvas-utils.ts:256-271 | the three corner dots miss the logo; the bottom-right one is left out |
| Frames.SacredClearsLogo | lib/canvas-utils.ts:274-288 | the sacred-geometry diamond misses the logo image |
| Frames.ElegantClearsLogo | lib/canvas-utils.ts:290-304 | the elegant frame draws two notched rectangles, both clear of the logo |
| Frames.FrameClearsLogo | lib/canvas-utils.ts:104-135 | outside the "Un Regard au Ciel" and gospel families, nothing the frame draws touches the logo image |
| Frames.DrawCircularFrame | lib/canvas-utils.ts:137-147 | the context ends in the circular frame's state |
| Frames.DrawFrameWithLogoCutout | lib/canvas-utils.ts:188-241 | the context strokes the notched path at the given margin |
| Frames.DrawCornerDecoration | lib/canvas-utils.ts:165-185 | the translated and flipped corner is stroked, and the save stack is restored |
| Frames.DrawGeometricFrame | lib/canvas-utils.ts:149-163 | the context ends in the geometric frame's state |
| Frames.DrawOrnateDot | lib/canvas-utils.ts:263-271 | one dot is filled between `save` and `restore`, leaving style and stack as before |
| Frames.DrawOrnateDots | lib/canvas-utils.ts:256-271 | the loop leaves the context in the state given by `DotsOn` |
| Frames.DrawOrnateFrame | lib/canvas-utils.ts:243-272 | the context ends in the ornate frame's state |
| Frames.DrawSacredGeometryFrame | lib/canvas-utils.ts:274-288 | the context ends in the diamond frame's state |
| Frames.DrawElegantFrame | lib/canvas-utils.ts:290-304 | the context ends in the elegant frame's state |
| Frames.DrawRegardCielFrame | lib/canvas-utils.ts:307-321 | the context ends with the green banner and its hashtag |
| Frames.DrawEvangileFrame | lib/canvas-utils.ts:323-346 | the context ends with the gradient banner of the style |
| Frames.DrawFrame | lib/canvas-utils.ts:104-135 | the context ends in the dispatched frame's state (see `FrameOn`) |
| Layout.TierForSpec | lib/canvas-utils.ts:518-533 | the chosen tier is the fallback or a table entry whose threshold the length exceeds; the fallback is chosen when no threshold is exceeded |
| Layout.TierMonotone | lib/canvas-utils.ts:518-533 | in a descending table, a longer text never gets a larger size or line height |
| Layout.TierBound | lib/canvas-utils.ts:518-533 | no tier is larger than the first |
| Layout.TablesDescending | lib/canvas-utils.ts:518-533 | both the verse table and the narrative table are descending |
| Layout.VerseTableDescending | lib/canvas-utils.ts:518-533 | the verse table is descending |
| Layout.NarrativeTableDescending | lib/canvas-utils.ts:607-633 | the narrative table is descending |
| Layout.Offset | lib/canvas-utils.ts:534-535 | the size is the resolved one, and the line height is at least size + 3 and at least the offset line height, equal to one of them |
| Layout.VerseSizing | lib/canvas-utils.ts:518-535 | the if-chain computes the verse tier after the offset; the size is at least 8 and the line height is at least size + 3 |
| Layout.NarrativeSizing | lib/canvas-utils.ts:607-636 | the same for the seven narrative tiers |
| Layout.SizingMonotone | lib/canvas-utils.ts:518-636 | after the offset, a longer text never gets a larger font, in either style |
| Layout.TierValues | lib/canvas-utils.ts:518-533 | verse sizes 18/17/16/15 above 100/200/300 characters; narrative sizes from 17 (up to 200) down to 11 (above 1200) |
| Layout.CountedLines | lib/canvas-utils.ts:539-553 | the pre-count is the number of wrapped lines, or one fewer |
| Layout.CountVerseLines | lib/canvas-utils.ts:539-553 | the counting loop counts every wrapped line except a final blank one |
| Layout.EmptyTextCountsNothing | lib/canvas-utils.ts:539-553 | empty text counts no line |
| Layout.CountZeroIff | lib/canvas-utils.ts:539-553 | the count is zero exactly when the wrap is a single blank line |
| Layout.VerseOrder | lib/canvas-utils.ts:555-562 | titleY = verseStartY − 90 < verseStartY = h − 95 − lines·lineHeight ≤ verseEndY = h − 95 < referenceY = h − 55 |
| Layout.VerseBlockIsCentred | lib/canvas-utils.ts:555-578 | the verse block is centred on verseStartY, so a tall block rises above the title's line |
| Layout.BannerStart | lib/canvas-utils.ts:323-335 | the gradient starts at 45%, 65% or 75% of the height for the narrative, verse and simple styles |
| Layout.BannerOrder | lib/canvas-utils.ts:326-335 | a longer text style gets a taller banner |
| Layout.TextsInBanner | lib/canvas-utils.ts:326-335 | on the 1024 canvas the simple title and reference, and the verse block's end and reference, lie below the start of their banner; the verse title lies inside the verse banner exactly when the block is at most 173.4 high |
| TextWrap.WrapFrom | lib/utils.ts:40-51 | the loop from word `i` commits at least one line and at most one per remaining word, plus one |
| TextWrap.BreakLines | lib/utils.ts:36-51 | the loop's lines are exactly `WrapLines(text)` |
| TextWrap.PlacedLines | lib/utils.ts:54-57 | one text command per line |
| TextWrap.WrapText | lib/utils.ts:28-58 | the context gains the wrapped lines, trimmed and placed, measured in the current font |
| TextWrap.FirstLineExtends | lib/utils.ts:40-51 | the line under construction is a prefix of the next committed line |
| TextWrap.LineCountBounds | lib/utils.ts:40-51 | at least one line, at most one per space-separated word |
| TextWrap.FirstLineStartsWithFirstWord | lib/utils.ts:44 | the first line starts with the first word and a space, however wide that word is |
| TextWrap.CoverageFrom | lib/utils.ts:40-51 | the lines from word `i` on, concatenated, are the current line followed by the remaining words, each with a space |
| TextWrap.SpacedIsJoin | lib/utils.ts:36-41 | each word followed by a space is the words joined by spaces, plus one space |
| TextWrap.WrapCoverage | lib/utils.ts:36-51 | the untrimmed lines concatenate to the text followed by one space: no word is dropped, duplicated or moved |
| TextWrap.FirstWordOf | lib/utils.ts:45-46 | the first word of a committed line is the word that started it |
| TextWrap.BreakFrom | lib/utils.ts:42-47 | from any point of the loop, each break happens only where the line plus the next word overflows |
| TextWrap.BreakOnlyWhenOverflowing | lib/utils.ts:42-47 | line k − 1 was committed because it was too wide with the first word of line k added |
| TextWrap.FitFrom | lib/utils.ts:40-51 | from any point of the loop, a committed line fits unless it is a single word |
| TextWrap.LinesFitUnlessSingleWord | lib/utils.ts:40-51 | a committed line is wider than the limit only when it holds one word |
| TextWrap.Placement | lib/utils.ts:54-57 | the block is symmetric about y, and successive lines are one line height apart |
| HexColor.Substr | lib/utils.ts:61-63 | `substr(start, length)` returns at most `length` characters |
| HexColor.DigitValue | lib/utils.ts:61-63 | a hexadecimal digit's value is below 16 |
| HexColor.DigitRun | lib/utils.ts:61-63 | `parseInt` reads the longest prefix of hexadecimal digits |
| HexColor.ParseTwoDigits | lib/utils.ts:61-63 | `parseInt` of two hexadecimal digits is their value |
| HexColor.ParsePair | lib/utils.ts:61-63 | the component at a fixed offset is the value of its digit pair, in 0..255 |
| HexColor.HexToRgbOfHexColor | lib/utils.ts:60-65 | for a colour that passes the editor's guard (js/app.js:98), each component is its pair's value, in 0..255 |
| HexColor.SignedChunksParse | lib/utils.ts:60-65 | without the guard the parser is lenient: `#-1-1-1` gives (−1, −1, −1) |
| HexColor.FormatHex | lib/utils.ts:60-65 | the partner of `hexToRgb`: the formatted colour passes the guard |
| HexColor.HexCharValue | lib/utils.ts:61-63 | a formatted digit reads back as its value |
| HexColor.DigitPair | lib/utils.ts:61-63 | a pair's value splits back into its two digits |
| HexColor.RoundTrip | lib/utils.ts:60-65 | formatting three components and parsing them back gives the same components |
| HexColor.HexCharOfDigit | lib/utils.ts:61-63 | formatting a digit's value gives the digit in lower case |
| HexColor.PairDigits | lib/utils.ts:61-63 | a pair's digits are recovered, in lower case, from its value |
| HexColor.FormatOfParse | lib/utils.ts:60-65 | parsing a guarded colour and formatting it again gives the colour in lower case |
| ImageCache.CacheLoad | lib/utils.ts:11-26 | a hit returns the cached image and changes nothing; a miss returns the loader's outcome; the URL is cached exactly when the load succeeded; no entry is lost or changed |
| ImageCache.LoadIsStable | lib/utils.ts:12-14 | once a load succeeded, later loads of that URL return the same image whatever the loader would do |
| ImageCache.FailureRetries | lib/utils.ts:23 | a failed load leaves the cache unchanged, so the next load calls the loader again |
| ImageCache.LoadAllKeeps | js/canvas.js:9-25 | after any series of loads every earlier entry is still there, unchanged, and only loaded URLs were added |
| ImageCache.Cache.constructor | lib/utils.ts:9 | the cache starts empty |
| ImageCache.Cache.Load | js/canvas.js:9-25 | one load updates the map as `CacheLoad` says |
| Draw.SavedScope | lib/canvas-utils.ts:173-184 | a stroke or fill between `save` and `restore` leaves the same state as drawing it without them |
| Draw.RestoreSave | lib/canvas-utils.ts:173-184 | restoring right after saving gives back the same state |
| Templates.FromTag | lib/templates.ts:3 | a tag reads back to itself, and it is `Unlisted` exactly when it is not one of the known tags |
| Templates.FromTagOfTag | lib/templates.ts:3 | every known frame style is identified by its tag |
| Templates.FamiliesOfStyles | lib/canvas-utils.ts:109-134 | each known tag belongs to the family its prefix names: `regard-ciel*`, `evangile*`, or the default frames |
| Templates.Lookup | lib/store.ts:111-114 | `templates[type][index]` fails exactly when the category or the index is missing, and otherwise returns that entry |
| Templates.CatalogShape | lib/templates.ts:28-129 | `jour` and `saint` each have three templates, and no other category has any |
| Templates.LookupDefined | lib/templates.ts:28-129 | the lookup succeeds exactly for `jour` or `saint` with an index below 3 |
| Templates.IdsAreNumbered | lib/templates.ts:31-113 | the ids are `<category>-1`, `-2` and `-3` |
| Templates.IdsAreUnique | lib/templates.ts:31-113 | two templates with the same id are the same entry |
| Templates.TemplateInvariants | lib/templates.ts:28-129 | title size > quote size > author size > 0, every frame colour is `#d4af37`, and every frame style is in the `FrameStyle` union |
| Templates.FrameStylesPerCategory | lib/templates.ts:36-118 | `jour` uses circular, geometric and elegant; `saint` uses ornate, geometric-sacred and elegant |
| Templates.GalleryCoversDefaults | lib/templates.ts:131-151 | 7 `jour` and 8 `saint` gallery images, and every default background is in its own category's gallery |
| Templates.LegacyCatalogAgrees | js/templates.js:2-103 | the legacy catalog equals the current one except for the `fa-` icon prefix |
| Store.SwitchTypeEffect | lib/store.ts:69-94 | `setType` selects index 0, clears the background, sets the title of the type, keeps quote and author for `jour` and `saint`, clears them for `ciel` and `evangile`, and touches nothing else |
| Store.SwitchTypeTemplate | lib/store.ts:69-94 | after switching, the lookup gives the first template of `jour` or `saint`, and fails for `ciel` and `evangile` |
| Store.SwitchTypeIdempotent | lib/store.ts:69-94 | switching to the same type twice is the same as switching once |
| Store.MergedTitle | lib/store.ts:121 | a non-empty generated title wins; an absent or empty one keeps the old title |
| Store.WithGeneratedContent | lib/store.ts:117-123 | quote and author are overwritten, the title is merged, `generatingText` is off, and nothing else changes |
| Store.GeneratedTitleWins | lib/store.ts:121 | with a generated title, the result does not depend on the title before |
| Store.WithGeneratedImage | lib/store.ts:125-128 | the background is the URL, `generatingImage` is off, and nothing else changes |
| Store.InitialIsValid | lib/store.ts:52-66 | the initial state names `jour`/0, whose lookup succeeds, and its opacity is in 0..100 |
| Store.EditorStore.constructor | lib/store.ts:52-66 | the store starts in the initial state |
| Store.EditorStore.SetType | lib/store.ts:69-94 | the new state is `SwitchType` of the old one |
| Store.EditorStore.SetTemplateIndex | lib/store.ts:96 | only the template index changes |
| Store.EditorStore.SetTitle | lib/store.ts:97 | only the title changes |
| Store.EditorStore.SetQuote | lib/store.ts:98 | only the quote changes |
| Store.EditorStore.SetAuthor | lib/store.ts:99 | only the author changes |
| Store.EditorStore.SetBackgroundImage | lib/store.ts:100 | only the background changes |
| Store.EditorStore.SetCustomLogo | lib/store.ts:101 | only the custom logo changes |
| Store.EditorStore.SetFrameColor | lib/store.ts:102 | only the frame colour changes |
| Store.EditorStore.SetTextColor | lib/store.ts:103 | only the text colour changes |
| Store.EditorStore.SetOverlayColor | lib/store.ts:104 | only the overlay colour changes |
| Store.EditorStore.SetOverlayOpacity | lib/store.ts:105 | only the overlay opacity changes |
| Store.EditorStore.SetIsGenerating | lib/store.ts:106 | only `isGenerating` changes |
| Store.EditorStore.SetGeneratingText | lib/store.ts:107 | only `generatingText` changes |
| Store.EditorStore.SetGeneratingImage | lib/store.ts:108 | only `generatingImage` changes |
| Store.EditorStore.GetCurrentTemplate | lib/store.ts:111-114 | changes nothing, and succeeds exactly for `jour`/`saint` with an index in 0..2 |
| Store.EditorStore.SetGeneratedContent | lib/store.ts:117-123 | the new state is `WithGeneratedContent` of the old one |
| Store.EditorStore.SetGeneratedImage | lib/store.ts:125-128 | the new state is `WithGeneratedImage` of the old one |
| LegacyState.ButtonIndices | js/templates.js:131-141 | one button per template of the category, numbered from 0 |
| LegacyState.InitialIsValid | js/templates.js:106-117 | the initial state is `jour`/0, with no author and opacity 50, and its lookup succeeds |
| LegacyState.ClickedButtonIsInRange | js/templates.js:135-148 | clicking any drawn button selects that button's template |
| LegacyState.CurrentState.constructor | js/templates.js:106-117 | the state starts as the initial state |
| LegacyState.CurrentState.SelectTemplate | js/templates.js:144-148 | a click changes only the template index |
| LegacyState.CurrentState.GetCurrentTemplate | js/templates.js:120-122 | changes nothing; the lookup fails exactly for the categories the legacy catalog lacks |
| TextContent.DefaultTextCommands | lib/canvas-utils.ts:363-395 | the default layout draws the title at (w/2, 200), the rule under it, one text per wrapped line, and the author line last exactly when there is an author |
| TextContent.DefaultTextReadable | lib/canvas-utils.ts:363-395 | every text of the default layout is centred and at least 8 pixels high, whatever the offset |
| TextContent.GospelTexts | lib/canvas-utils.ts:486-507 | the shared part of the gospel layouts only adds texts |
| TextContent.GospelTextsOrder | lib/canvas-utils.ts:486-507 | only texts are added: the title first and the reference last, each at its own place and in its own font, and nothing when all three are empty |
| TextContent.VerseLayoutDrawn | lib/canvas-utils.ts:513-591 | the verse layout draws the title at titleY first and the reference at h − 55 last, the positions are ordered, and the line height is at least size + 3 |
| TextContent.ShadowSwitchedOff | lib/canvas-utils.ts:398-667 | the layouts that reset the shadow leave it off; an unknown gospel tag draws nothing and leaves the strong shadow on |
| TextContent.CitationAuthorLast | lib/canvas-utils.ts:436-461 | the citation style draws the author line last, in yellow, 40 above the banner |
| TextContent.AddsTextsTrans | lib/canvas-utils.ts:398-463 | adding only texts composes |
| TextContent.RegardCielAddsTexts | lib/canvas-utils.ts:398-463 | the "Un Regard au Ciel" layouts only add texts |
| TextContent.TextOnAppends | lib/canvas-utils.ts:348-396 | every text layout only appends texts, plus the rule of the default layout, and keeps the path and the save stack |
| TextContent.DrawLineIf | lib/canvas-utils.ts:491-502 | an empty text draws nothing; otherwise one text in the given paint and font |
| TextContent.DrawBlockIf | lib/canvas-utils.ts:447-451 | an empty text draws nothing; otherwise the wrapped block |
| TextContent.DrawDefaultHeading | lib/canvas-utils.ts:363-384 | the context gains the heading of the default layout |
| TextContent.DrawDefaultText | lib/canvas-utils.ts:363-395 | the context ends in the default layout's state |
| TextContent.DrawNomText | lib/canvas-utils.ts:415-434 | the context ends in the name style's state |
| TextContent.DrawCitationText | lib/canvas-utils.ts:436-461 | the context ends in the citation style's state |
| TextContent.DrawRegardCielText | lib/canvas-utils.ts:398-463 | the context ends in the state of the "Un Regard au Ciel" style |
| TextContent.DrawGospelTexts | lib/canvas-utils.ts:486-507 | the context ends in the state given by `GospelTexts` |
| TextContent.DrawSimpleText | lib/canvas-utils.ts:486-507 | the context ends in the simple gospel layout's state |
| TextContent.DrawVerseText | lib/canvas-utils.ts:513-591 | the context ends in the verse layout's state |
| TextContent.DrawNarrativeText | lib/canvas-utils.ts:597-666 | the context ends in the narrative layout's state |
| TextContent.DrawEvangileText | lib/canvas-utils.ts:465-667 | the strong shadow is set, then the layout of the style is drawn |
| TextContent.DrawTextContent | lib/canvas-utils.ts:348-396 | the context ends in the dispatched text layout's state |
| Render.CoverFitCovers | lib/canvas-utils.ts:58-61 | the placed image covers the canvas, fits one side exactly, is centred, and keeps its proportions |
| Render.BackgroundDrawn | lib/canvas-utils.ts:50-71 | a loaded background is drawn once by the cover fit; a failed one is replaced by the gradient over the whole canvas |
| Render.DrawBackground | lib/canvas-utils.ts:50-71 | the context ends in the state `BackgroundOn` gives |
| Render.OverlayOfGuardedColor | lib/canvas-utils.ts:95-102 | for a guarded colour the overlay components are in 0..255, and an opacity in 0..100 gives an alpha in 0..1 |
| Render.OverlayOfFormatted | lib/canvas-utils.ts:95-102 | the overlay of a colour written as `#rrggbb` has exactly those components and alpha opacity/100 |
| Render.DrawOverlay | lib/canvas-utils.ts:95-102 | the context fills the whole canvas with the overlay paint |
| Render.LogoDrawn | lib/canvas-utils.ts:692-749 | one command: the logo image exactly in the logo box, or, without an image, "VDS" at the box centre |
| Render.DrawFallbackLogo | lib/canvas-utils.ts:733-749 | the context ends with the text logo drawn |
| Render.DrawLogo | lib/canvas-utils.ts:692-731 | the context ends in the state `LogoOn` gives |
| Render.RegardCielLogoDrawn | lib/canvas-utils.ts:752-784 | a white disc, then the image when there is one; both sit above the banner on a canvas at least 206 high |
| Render.DrawRegardCielLogo | lib/canvas-utils.ts:752-784 | the context ends in the state `RegardCielLogoOn` gives |
| Render.FinalLogoLast | lib/canvas-utils.ts:84-88 | the logo step appends, and outside "Un Regard au Ciel" its command is the last one |
| Render.ElementsAppend | lib/canvas-utils.ts:73-92 | overlay first, over the whole canvas, and the logo last; the save stack is kept |
| Render.RenderPhases | lib/canvas-utils.ts:39-93 | clear, then the background or the gradient, then the overlay, then frame and text, and the logo last |
| Render.DrawElements | lib/canvas-utils.ts:73-92 | the context ends in the state `ElementsOn` gives |
| Render.RenderCanvas | lib/canvas-utils.ts:39-93 | the background then the logo are loaded through the cache, and the context ends in `RenderOn` of the outcomes |
| LegacyCanvas.DrawLegacyOverlay | js/canvas.js:71-81 | the whole canvas is filled with the overlay colour at opacity/100 |
| LegacyCanvas.DrawLegacyGeometric | js/canvas.js:100-111 | the context ends in the legacy geometric frame's state |
| LegacyCanvas.DrawLegacyOrnate | js/canvas.js:113-123 | the context ends in the legacy ornate frame's state |
| LegacyCanvas.DrawLegacyElegant | js/canvas.js:141-152 | the context ends in the legacy elegant frame's state |
| LegacyCanvas.DrawLegacyFrame | js/canvas.js:84-153 | the context ends in the dispatched legacy frame's state |
| LegacyCanvas.DrawLegacyHeading | js/canvas.js:194-208 | the title and the rule are drawn in the template's own size |
| LegacyCanvas.DrawLegacyText | js/canvas.js:194-220 | the context ends in the legacy text layout's state |
| LegacyCanvas.LegacyTextCommands | js/canvas.js:194-220 | the title at (w/2, 200), the rule, one text per wrapped line, and the author line at h − 200 exactly when there is an author |
| LegacyCanvas.DrawLegacyLogo | js/canvas.js:249-269 | the context ends in the badge's state |
| LegacyCanvas.LegacyLogoDrawn | js/canvas.js:249-269 | a disc in the frame colour, then "VDS" on it in white; style and save stack as before |
| LegacyCanvas.BottomEdgeCrosses | js/canvas.js:100-152 | the bottom edge of a legacy rectangle at margin 60 or 70 runs through the badge |
| LegacyCanvas.LegacyFramesCrossLogo | js/canvas.js:84-153 | the legacy rectangular frames have no cutout: one of their strokes crosses the badge |
| LegacyCanvas.LegacyGeometricCorners | js/canvas.js:100-111 | the legacy geometric frame draws the rectangle and all four corner decorations, inside the rectangle |
| LegacyCanvas.LegacyOrnateDots | js/canvas.js:113-123 | the legacy ornate frame draws four dots, one on each vertex of the outer rectangle |
| LegacyCanvas.UpdateFailurePaths | js/canvas.js:28-68 | an unknown category throws in the lookup and draws nothing, not even the clear; with no URL only the clear happens; a failed load gives the clear and the gradient only; a missing template with a loaded background ends on the gradient |
| LegacyCanvas.UpdateSuccessPhases | js/canvas.js:37-57 | clear, background by cover fit, overlay, then frame and text, and the badge last |
| LegacyCanvas.SceneEndsOnBadge | js/canvas.js:48-57 | frame, text and badge only append, and the badge's disc and "VDS" come last |
| LegacyCanvas.LegacyFrameAppends | js/canvas.js:84-153 | a legacy frame only appends and keeps the save stack |
| LegacyCanvas.UpdateCanvas | js/canvas.js:28-68 | an unknown category returns before the clear; otherwise the background URL is the state's or the template's default, the image is loaded through the cache, and the context ends in `UpdateOn` of the outcome |
| GospelRoute.FirstIndexFrom | app/api/evangile/route.ts:58 | the first index holding the value, or none when there is none |
| GospelRoute.FindEvangile | app/api/evangile/route.ts:58 | the first lecture of type `evangile`, or none exactly when there is none |
| GospelRoute.SameIgnoringCaseRefl | app/api/evangile/route.ts:69-71 | a text matches itself ignoring case |
| GospelRoute.SpaceRun | app/api/evangile/route.ts:69 | the run of white space at the front is maximal |
| GospelRoute.BrLength | app/api/evangile/route.ts:69 | a length found is that of a match: `<`, `b` and `r` in either case, white space, an optional `/`, then `>` |
| GospelRoute.BrLengthComplete | app/api/evangile/route.ts:69 | every match at the front is found, with its length, so none means no match |
| GospelRoute.ReplaceLiteral | app/api/evangile/route.ts:70-73 | every character of the result comes from the text or from the replacement |
| GospelRoute.ReplaceLiteralNoMatch | app/api/evangile/route.ts:70-73 | a text in which the pattern matches nowhere is unchanged |
| GospelRoute.NoMatchWithoutFirst | app/api/evangile/route.ts:70-73 | a pattern starting with a non-letter matches nowhere in a text lacking that character, with or without the `i` flag |
| GospelRoute.ReplaceBrKeepsText | app/api/evangile/route.ts:69 | a text without `<` is unchanged by the `<br>` replace |
| GospelRoute.StripTags | app/api/evangile/route.ts:72 | the result has no `<…>` tag and only characters of the text |
| GospelRoute.StripTagsKeepsText | app/api/evangile/route.ts:72 | text without `<` in front is kept as it is, and the removal goes on with the rest |
| GospelRoute.StripTagsDropsTag | app/api/evangile/route.ts:72 | a tag from `<` to the first `>` is removed and nothing else |
| GospelRoute.FirstTagEnd | app/api/evangile/route.ts:72 | the tag ends at the first `>` after its `<` |
| GospelRoute.CollapseSpaces | app/api/evangile/route.ts:74 | only plain spaces, no two in a row, and the first character kept when it is not white space |
| GospelRoute.CollapseKeepsTidy | app/api/evangile/route.ts:74 | single-spaced text is unchanged |
| GospelRoute.CollapseKeepsWords | app/api/evangile/route.ts:74 | text without white space is kept as it is, in front of the collapsed rest |
| GospelRoute.CollapseSpaceRun | app/api/evangile/route.ts:74 | a whole run of white space becomes one plain space |
| GospelRoute.SpaceRunOf | app/api/evangile/route.ts:74 | the white-space run in front of a non-space character is exactly that run |
| GospelRoute.NoTagSuffix | app/api/evangile/route.ts:72 | a suffix of tag-free text is tag-free |
| GospelRoute.NoTagPrefix | app/api/evangile/route.ts:72 | a prefix of tag-free text is tag-free |
| GospelRoute.NoTagAppend | app/api/evangile/route.ts:72 | tag-free text stays tag-free when text without `<` is added |
| GospelRoute.ReplaceLiteralNoTag | app/api/evangile/route.ts:73 | replacing `&nbsp;` by a space keeps the text tag-free |
| GospelRoute.CollapseNoTag | app/api/evangile/route.ts:74 | collapsing white space keeps the text tag-free |
| GospelRoute.CleanNewlinesNoOp | app/api/evangile/route.ts:75 | after collapsing, the newline clean-up changes nothing |
| GospelRoute.TrimIsSlice | app/api/evangile/route.ts:76 | `trim` returns a slice of the text |
| GospelRoute.TidySlice | app/api/evangile/route.ts:76 | a slice of tidy text is tidy |
| GospelRoute.TrimTidy | app/api/evangile/route.ts:76 | trimming tidy text gives tidy, trimmed text |
| GospelRoute.CleanIsTidy | app/api/evangile/route.ts:68-76 | the cleaned text has no tag, no two white-space characters in a row, no white space at either end, and no newline |
| GospelRoute.CleanKeepsClean | app/api/evangile/route.ts:68-76 | a text that is already single-spaced, trimmed and free of `<` and `&` comes out unchanged |
| GospelRoute.Leftmost | app/api/evangile/route.ts:80-81 | the leftmost position where the test holds, or none when it holds nowhere |
| GospelRoute.RemoveEnding | app/api/evangile/route.ts:80-81 | removing an ending gives a prefix of the text |
| GospelRoute.EndingRemoved | app/api/evangile/route.ts:79-82 | a body followed by `– ` and the phrase and a period loses exactly that ending |
| GospelRoute.WithoutEndingTidy | app/api/evangile/route.ts:79-82 | the text without its ending is still tidy and trimmed |
| GospelRoute.QuoteFrom | app/api/evangile/route.ts:86 | the leftmost `«` with a later `»` and its closing mark, or none when there is no such pair |
| GospelRoute.StopRun | app/api/evangile/route.ts:93 | the run of `.`, `!` or `?` at the front is maximal |
| GospelRoute.SplitSentences | app/api/evangile/route.ts:93 | at least one piece, and no piece contains a stop character |
| GospelRoute.SplitStopFree | app/api/evangile/route.ts:93 | a text without stops is one piece, itself |
| GospelRoute.StopRunOf | app/api/evangile/route.ts:93 | the stop run in front of a non-stop character is exactly that run |
| GospelRoute.SplitAtStops | app/api/evangile/route.ts:93 | a stop-free text followed by a whole run of stops is the first piece, and the split goes on after the run |
| GospelRoute.WithoutStopsRun | app/api/evangile/route.ts:93 | dropping a run of stop characters drops nothing else |
| GospelRoute.SplitKeepsText | app/api/evangile/route.ts:93 | the pieces, concatenated, are the text without its stop characters |
| GospelRoute.LongSentences | app/api/evangile/route.ts:93 | each kept piece is longer than 10 once trimmed and comes from the split; every long piece is kept; none is kept exactly when none is long; the first kept is the first long piece |
| GospelRoute.LongSentencesAppend | app/api/evangile/route.ts:93 | the filter keeps order: filtering a concatenation concatenates the filtered halves |
| GospelRoute.TruncatedBounds | app/api/evangile/route.ts:108 | at most 253 characters; unchanged up to 250; otherwise the first 250 followed by `...` |
| GospelRoute.TrimStartSkipsSpace | app/api/evangile/route.ts:90 | `trimStart` skips a leading white-space character |
| GospelRoute.TrimEndKeepsFront | app/api/evangile/route.ts:90 | `trimEnd` keeps a non-space first character |
| GospelRoute.TrimEndAllSpace | app/api/evangile/route.ts:90 | `trimEnd` of white space followed by white space is empty |
| GospelRoute.TrimSkipsSpace | app/api/evangile/route.ts:90 | `trim` ignores white space added at either end |
| GospelRoute.CapturedTrim | app/api/evangile/route.ts:86-90 | the trimmed group equals the trimmed text between the marks |
| GospelRoute.QuotedVerse | app/api/evangile/route.ts:86-91 | with a `«…»` pair, the verse is `« ` + the trimmed inner text + ` »`, from the leftmost opening mark |
| GospelRoute.TrimNonEmptyOfPrefix | app/api/evangile/route.ts:94 | a text that starts with a long piece trims to a non-empty text |
| GospelRoute.JoinStartsWithFirst | app/api/evangile/route.ts:94 | a join starts with its first piece |
| GospelRoute.JoinedVerseShape | app/api/evangile/route.ts:94-95 | the joined verse is empty exactly when no piece is kept, and otherwise ends with `.` |
| GospelRoute.SentencesVerseShape | app/api/evangile/route.ts:93-95 | the sentence verse is empty exactly when no piece is long, and otherwise ends with `.` |
| GospelRoute.TrimEndSpaceTail | app/api/evangile/route.ts:94 | `trimEnd` drops white space after a non-space end and nothing more |
| GospelRoute.TrimOfPrefix | app/api/evangile/route.ts:94 | text added after a non-blank piece does not change how the trimmed piece begins |
| GospelRoute.JoinedVerseStartsWithFirst | app/api/evangile/route.ts:94-95 | the joined verse begins with its first piece, trimmed |
| GospelRoute.SentencesVerseStartsWithFirstLong | app/api/evangile/route.ts:93-95 | the sentence verse begins with the first long piece of the split, trimmed |
| GospelRoute.RespondOutcomes | app/api/evangile/route.ts:29-119 | 500 exactly when the fetch failed; 404 "Messe" exactly when there is no first messe with lectures; 404 "Évangile" exactly when it has no gospel lecture; 200 otherwise |
| GospelRoute.ReadingOfShape | app/api/evangile/route.ts:99-110 | the reading keeps date and reference, has a non-empty title and intro, a short verse of at most 253 characters, a tidy full text, and the liturgical info |
| GospelRoute.FoundReading | app/api/evangile/route.ts:58-110 | a 200 reply is built from the first gospel lecture, with the title and intro defaults |

## Left out

- The browser's canvas is a log of commands in `Draw.Context`. Pixels, antialiasing, `Math.PI`, gradient interpolation, shadows and `globalAlpha` are not rendered; each call appends a command or changes a style field.
- Transforms (`translate`, `scale`) in the corner decorations and ornate dots are not kept as a matrix. The points are computed in canvas coordinates.
- `measureText` is a function parameter. Font rendering is not modelled.
- Image loading is an outcome parameter: a `Loader` gives an image or failure. The asynchronous `Image` object, `crossOrigin` and the promise are not modelled.
- Two renders running at once are not modelled. The source has no guard against it.
- Coordinates are exact reals, not IEEE doubles.
- String lengths count characters, not UTF-16 code units. They agree for the French text in the source, which stays in the Basic Multilingual Plane.
- The gospel route's `fetch`, `Date` and `NextResponse` are left out. The date and the parsed AELF reply, or failure, are inputs of `GospelRoute.Respond`.
- The route's other 500 paths are not modelled: a reply that is not JSON, and a `contenu` that is not a string. A failed fetch covers them.
- Case-insensitive matching in the gospel clean-up folds ASCII letters only. The patterns it is applied to (`br`, `p`, `Acclamons la Parole de Dieu`, `Parole du Seigneur`) differ only in ASCII letters.
- `exportCanvasAsPNG` (lib/canvas-utils.ts:786-792) and the legacy `exportCanvas` are left out: they are DOM downloads.
- The store's `localStorage` persistence (lib/store.ts:131-137) is left out: it is browser storage.
- The store's actions (`setType` and the other setters) accept `ciel` and `evangile`, while `TemplateType` and the catalog have only `jour` and `saint` (lib/templates.ts:1, 28-129). In the source, `templates[type][index]` then throws a TypeError. The model returns `Err(UnknownCategory)` instead.
- `setTemplateIndex` accepts any index (lib/store.ts:96), and `getCurrentTemplate` (lib/store.ts:111-114) then returns `undefined` for one out of range. The model gives `Err` there. `renderCanvas` would clear the canvas and then throw at `template.defaultBg` (lib/canvas-utils.ts:47-50). `Render.RenderCanvas` takes a `Template`, so that path is not modelled. The editor's buttons only offer indices in range.
- The lookup failures of the legacy renderer are modelled by where the exception would stop `updateCanvas`, not as an exception. An unknown category stops it at the lookup (js/canvas.js:29), before the clear. An index out of range stops it at the URL (js/canvas.js:35) when the state has no background, and otherwise in `drawFrame`, inside the `try`.
- `FrameStyle` is a datatype with every tag the dispatcher tests, plus `Unlisted(tag)`, although `lib/templates.ts:3` lists only five of them.
- `fontSizeOffset` is modelled only as a number, as `CanvasState` declares it (lib/canvas-utils.ts:15). The model does not capture what the app does as written.
- components/editor/Canvas.tsx:34-44, the only caller of `renderCanvas`, passes no `fontSizeOffset`. There, `resolveSize` (lib/canvas-utils.ts:26-28) gives `Math.max(8, size + undefined)`, which is NaN.
- Every sized font string then reads `NaNpx …`. The canvas rejects it and keeps the previous font.
- The wrapped lines' line height and y are NaN too (lib/utils.ts:54-56, lib/canvas-utils.ts:578 and :653), so none of them is drawn.
- The model, with a numeric offset such as 0, draws text that the app as written does not. This is a defect in that caller, not in the renderer.
- `customFontFamily` is a string. The `undefined` from Canvas.tsx behaves like "", because `undefined || templateFont` and `"" || templateFont` agree.
- The legacy wrapText (js/canvas.js:223-246) is the same algorithm as lib/utils.ts:28-58. Both renderers use `TextWrap.WrapText`.
- The legacy cache (js/canvas.js:6-25) treats any truthy entry as a hit. It differs from the `Map` of lib/utils.ts only in JavaScript truthiness, which images always have. Both use `ImageCache.Cache`.
- `Frames.FrameOn`: its own contract states only that the frame appends and keeps the save stack. The drawing of each style is stated by the `…ClearsLogo` lemmas, for the 1024 canvas only.
- `Frames.CutoutPath`: its own contract states only the length and the end points. The shape is stated by `NotchInside`, `CutoutClearsLogo`, `CutoutSidesApart` and `CutoutNotchApart`.
- `TextContent.GospelTexts`: its own contract states only that texts are added. The order is stated by `GospelTextsOrder`.
