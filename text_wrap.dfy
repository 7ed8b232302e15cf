/**
 * Greedy word wrap, `wrapText` in lib/utils.ts (the same algorithm as the
 * legacy `wrapText` in js/canvas.js). The text is split on ASCII space; words
 * are appended, each followed by one space, to the current line; when the
 * measured width of the extended line exceeds the maximum width and the word
 * is not the first of the text, the current line is committed and the word
 * starts a new one. The last line is always committed. The lines are then
 * drawn, trimmed, centred vertically on `y`.
 */
module TextWrap {
  import opened Strings
  import opened Draw

  /** What `ctx.measureText` needs: the text-width function of the browser,
      the font in effect, and the width limit. */
  datatype Metrics = Metrics(measure: (Font, string) -> real, font: Font, maxWidth: real)

  /** `ctx.measureText(s).width > maxWidth`. */
  predicate Overflows(m: Metrics, s: string) {
    m.measure(m.font, s) > m.maxWidth
  }

  /** Each word followed by one space, concatenated. */
  function Spaced(words: seq<string>): string
    decreases |words|
  {
    if words == [] then "" else words[0] + " " + Spaced(words[1..])
  }

  /** The lines concatenated. */
  function Flatten(lines: seq<string>): string
    decreases |lines|
  {
    if lines == [] then "" else lines[0] + Flatten(lines[1..])
  }

  /** The text of a line up to its first space (its first word). */
  function FirstWord(s: string): string
    decreases |s|
  {
    if s == [] || s[0] == ' ' then "" else [s[0]] + FirstWord(s[1..])
  }

  /** The lines the loop produces from word `i` on, when the line being built is
      `line`: the specification of the loop at lib/utils.ts:40-51. */
  function WrapFrom(words: seq<string>, i: nat, line: string, m: Metrics): (lines: seq<string>)
    requires i <= |words|
    ensures 1 <= |lines| <= |words| - i + 1
    decreases |words| - i
  {
    if i == |words| then [line]
    else
      var test := line + words[i] + " ";
      if Overflows(m, test) && i > 0 then [line] + WrapFrom(words, i + 1, words[i] + " ", m)
      else WrapFrom(words, i + 1, test, m)
  }

  /** The untrimmed lines `wrapText` commits for `text`. */
  function WrapLines(text: string, m: Metrics): seq<string> {
    WrapFrom(Split(text, ' '), 0, "", m)
  }

  /** The loop of `wrapText`: breaks `text` into lines, measuring with `m`. */
  method BreakLines(text: string, m: Metrics) returns (lines: seq<string>)
    ensures lines == WrapLines(text, m)
  {
    var words := Split(text, ' ');
    var line := "";
    lines := [];
    var i := 0;
    while i < |words|
      invariant 0 <= i <= |words|
      invariant lines + WrapFrom(words, i, line, m) == WrapLines(text, m)
    {
      var testLine := line + words[i] + " ";
      if Overflows(m, testLine) && i > 0 {
        lines := lines + [line];
        line := words[i] + " ";
      } else {
        line := testLine;
      }
      i := i + 1;
    }
    lines := lines + [line];
  }

  /** Baseline of line `k` of `n` lines centred on `y`:
      `y - ((n - 1) * lineHeight) / 2 + k * lineHeight`. */
  function LineY(y: real, n: nat, k: nat, lineHeight: real): real {
    y - ((n as real - 1.0) * lineHeight) / 2.0 + (k as real) * lineHeight
  }

  /** The text commands that draw `lines` centred on `(x, y)` with the given style. */
  function PlacedLines(style: Style, lines: seq<string>, x: real, y: real, lineHeight: real): (cmds: seq<DrawCmd>)
    ensures |cmds| == |lines|
  {
    seq(|lines|, k requires 0 <= k < |lines| =>
      Text(style, Trim(lines[k]), Point(x, LineY(y, |lines|, k, lineHeight))))
  }

  /** The context state after `wrapText`: the lines placed in its style,
      measured in its font. */
  function Wrapped(c: Canvas, measure: (Font, string) -> real, text: string,
                   x: real, y: real, maxWidth: real, lineHeight: real): Canvas {
    c.(log := c.log + PlacedLines(c.style, WrapLines(text, Metrics(measure, c.style.font, maxWidth)), x, y, lineHeight))
  }

  /** `wrapText(ctx, text, x, y, maxWidth, lineHeight)`: draws the wrapped lines,
      measured in the context's current font, centred vertically on `y`. */
  method WrapText(ctx: Context, measure: (Font, string) -> real, text: string,
                  x: real, y: real, maxWidth: real, lineHeight: real)
    modifies ctx
    ensures ctx.State() == Wrapped(old(ctx.State()), measure, text, x, y, maxWidth, lineHeight)
  {
    var lines := BreakLines(text, Metrics(measure, ctx.style.font, maxWidth));
    var k := 0;
    ghost var placed := PlacedLines(ctx.style, lines, x, y, lineHeight);
    while k < |lines|
      invariant 0 <= k <= |lines|
      invariant ctx.State() == old(ctx.State()).(log := old(ctx.log) + placed[..k])
    {
      ctx.FillText(Trim(lines[k]), x, LineY(y, |lines|, k, lineHeight));
      assert placed[..k + 1] == placed[..k] + [placed[k]];
      k := k + 1;
    }
    assert placed[..k] == placed;
  }

  // ---------------------------------------------------------------------------
  // Properties of the greedy wrap

  /** The line under construction is a prefix of the first committed line. */
  lemma {:induction false} FirstLineExtends(words: seq<string>, i: nat, line: string, m: Metrics)
    requires i <= |words|
    ensures StartsWith(WrapFrom(words, i, line, m)[0], line)
    decreases |words| - i
  {
    if i < |words| {
      var test := line + words[i] + " ";
      if !(Overflows(m, test) && i > 0) {
        FirstLineExtends(words, i + 1, test, m);
        var r := WrapFrom(words, i + 1, test, m)[0];
        assert r[..|line|] == r[..|test|][..|line|];
      }
    }
  }

  /** `wrapText` always commits at least one line, and never more lines than
      the text has space-separated words. */
  lemma LineCountBounds(text: string, m: Metrics)
    ensures 1 <= |WrapLines(text, m)| <= |Split(text, ' ')|
  {
    var words := Split(text, ' ');
    assert WrapFrom(words, 0, "", m) == WrapFrom(words, 1, "" + words[0] + " ", m);
  }

  /** The first word never causes a break: the first line starts with the
      first word of the text and its space, however wide that word is. */
  lemma FirstLineStartsWithFirstWord(text: string, m: Metrics)
    ensures StartsWith(WrapLines(text, m)[0], Split(text, ' ')[0] + " ")
  {
    var words := Split(text, ' ');
    assert WrapFrom(words, 0, "", m) == WrapFrom(words, 1, "" + words[0] + " ", m);
    assert "" + words[0] + " " == words[0] + " ";
    FirstLineExtends(words, 1, words[0] + " ", m);
  }

  lemma {:induction false} CoverageFrom(words: seq<string>, i: nat, line: string, m: Metrics)
    requires i <= |words|
    ensures Flatten(WrapFrom(words, i, line, m)) == line + Spaced(words[i..])
    decreases |words| - i
  {
    if i == |words| {
      assert Flatten([line]) == line + Flatten([]);
    } else {
      var test := line + words[i] + " ";
      assert words[i..] == [words[i]] + words[i + 1..];
      assert Spaced(words[i..]) == words[i] + " " + Spaced(words[i + 1..]);
      CoverageFrom(words, i + 1, if Overflows(m, test) && i > 0 then words[i] + " " else test, m);
      if Overflows(m, test) && i > 0 {
        var rest := WrapFrom(words, i + 1, words[i] + " ", m);
        assert Flatten([line] + rest) == line + Flatten(rest);
      }
    }
  }

  lemma {:induction false} SpacedIsJoin(words: seq<string>)
    requires words != []
    ensures Spaced(words) == Join(words, " ") + " "
    decreases |words|
  {
    if |words| > 1 {
      SpacedIsJoin(words[1..]);
    }
  }

  /** No word is dropped, duplicated or reordered: the committed lines,
      concatenated untrimmed, are the text followed by one space. */
  lemma WrapCoverage(text: string, m: Metrics)
    ensures Flatten(WrapLines(text, m)) == text + " "
  {
    var words := Split(text, ' ');
    CoverageFrom(words, 0, "", m);
    assert words[0..] == words;
    SpacedIsJoin(words);
    JoinSplit(text, ' ');
  }

  lemma {:induction false} FirstWordOf(w: string, rest: string)
    requires ' ' !in w
    ensures FirstWord(w + " " + rest) == w
    decreases |w|
  {
    if w != [] {
      assert (w + " " + rest)[1..] == w[1..] + " " + rest;
      FirstWordOf(w[1..], rest);
    }
  }

  lemma {:induction false} BreakFrom(words: seq<string>, i: nat, line: string, m: Metrics, k: nat)
    requires i <= |words|
    requires forall j :: 0 <= j < |words| ==> ' ' !in words[j]
    requires 1 <= k < |WrapFrom(words, i, line, m)|
    ensures var lines := WrapFrom(words, i, line, m);
      Overflows(m, lines[k - 1] + FirstWord(lines[k]) + " ")
    decreases |words| - i
  {
    var test := line + words[i] + " ";
    if Overflows(m, test) && i > 0 {
      var rest := WrapFrom(words, i + 1, words[i] + " ", m);
      if k == 1 {
        FirstLineExtends(words, i + 1, words[i] + " ", m);
        var r0 := rest[0];
        assert r0 == words[i] + " " + r0[|words[i]| + 1..];
        FirstWordOf(words[i], r0[|words[i]| + 1..]);
      } else {
        BreakFrom(words, i + 1, words[i] + " ", m, k - 1);
      }
    } else {
      BreakFrom(words, i + 1, test, m, k);
    }
  }

  /** A line is committed only because the word that starts the next line did
      not fit: line `k - 1` followed by the first word of line `k` and a space
      is wider than the limit. */
  lemma BreakOnlyWhenOverflowing(text: string, m: Metrics, k: nat)
    requires 1 <= k < |WrapLines(text, m)|
    ensures Overflows(m, WrapLines(text, m)[k - 1] + FirstWord(WrapLines(text, m)[k]) + " ")
  {
    BreakFrom(Split(text, ' '), 0, "", m, k);
  }

  /** A line holding a single word followed by its space. */
  predicate SingleWord(line: string) {
    |line| >= 1 && line[|line| - 1] == ' ' && ' ' !in line[..|line| - 1]
  }

  lemma {:induction false} FitFrom(words: seq<string>, i: nat, line: string, m: Metrics, k: nat)
    requires i <= |words|
    requires forall j :: 0 <= j < |words| ==> ' ' !in words[j]
    requires (i == 0 && line == "") || (i > 0 && (SingleWord(line) || !Overflows(m, line)))
    requires i == |words| ==> i > 0
    requires k < |WrapFrom(words, i, line, m)|
    ensures var lines := WrapFrom(words, i, line, m);
      SingleWord(lines[k]) || !Overflows(m, lines[k])
    decreases |words| - i
  {
    if i < |words| {
      var test := line + words[i] + " ";
      assert i == 0 ==> test == words[i] + " ";
      assert (words[i] + " ")[..|words[i]|] == words[i];
      if Overflows(m, test) && i > 0 {
        if k > 0 {
          FitFrom(words, i + 1, words[i] + " ", m, k - 1);
        }
      } else {
        FitFrom(words, i + 1, test, m, k);
      }
    }
  }

  /** Greedy filling never overfills: a committed line is wider than the limit
      only when it holds a single word (which cannot be broken). */
  lemma LinesFitUnlessSingleWord(text: string, m: Metrics, k: nat)
    requires k < |WrapLines(text, m)|
    ensures SingleWord(WrapLines(text, m)[k]) || !Overflows(m, WrapLines(text, m)[k])
  {
    FitFrom(Split(text, ' '), 0, "", m, k);
  }

  /** The block is symmetric about `y` and successive lines are one line height
      apart. */
  lemma Placement(y: real, n: nat, k: nat, lineHeight: real)
    requires k < n
    ensures LineY(y, n, k, lineHeight) + LineY(y, n, n - 1 - k, lineHeight) == 2.0 * y
    ensures LineY(y, n, k + 1, lineHeight) - LineY(y, n, k, lineHeight) == lineHeight
  {
    assert ((n - 1 - k) as real) * lineHeight == (n as real - 1.0) * lineHeight - (k as real) * lineHeight;
    assert ((k + 1) as real) * lineHeight == (k as real) * lineHeight + lineHeight;
  }
}
