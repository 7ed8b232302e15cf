/**
 * The browser's 2D drawing context, abstracted. Pixels are not modelled: every
 * call that paints appends a command to a log, and each command records a
 * snapshot of the context's drawing state (paint, line width, alpha, font,
 * text alignment, shadow) at the moment it was issued. The current path and
 * the save/restore stack are modelled because the renderer relies on them.
 * Arcs are always full circles in the renderer, so an arc is a `Circle`.
 */
module Draw {
  import opened Wrappers

  datatype Point = Point(x: real, y: real)

  datatype ColorStop = ColorStop(offset: real, color: string)

  /** A fill paint: a CSS colour string, an `rgba(r, g, b, a)` built from parsed
      components (`None` stands for JavaScript's NaN), or a linear gradient. */
  datatype Paint =
    | Css(color: string)
    | Rgba(r: Option<int>, g: Option<int>, b: Option<int>, a: real)
    | LinearGradient(from: Point, to: Point, stops: seq<ColorStop>)

  /** The family list of a CSS font: written out as it stands, or a font
      name followed by the fallback list the renderer derives from it
      (`fontFallback`; the text of that list is `Layout.StackCss`). */
  datatype FontStack = Plain(css: string) | WithFallback(name: string)

  /** A CSS font: the prefix ("", "italic", "bold", "italic bold"), the pixel
      size and the family list. */
  datatype Font = Font(variant: string, size: int, family: FontStack)

  /** The drawing state that paint commands read. */
  datatype Style = Style(
    fill: Paint,
    stroke: string,
    lineWidth: real,
    alpha: real,
    font: Font,
    align: string,
    baseline: string,
    shadowColor: string,
    shadowBlur: real,
    shadowOffsetX: real,
    shadowOffsetY: real)

  datatype PathOp =
    | MoveTo(p: Point)
    | LineTo(p: Point)
    | QuadTo(control: Point, p: Point)
    | Circle(center: Point, radius: real)
    | ClosePath

  /** A length greater than zero. */
  type Extent = x: real | x > 0.0 witness 1.0

  /** A decoded image: where it came from and its natural size, which is
      never zero for an image that loaded. */
  datatype Image = Image(source: string, width: Extent, height: Extent)

  datatype DrawCmd =
    | Clear(x: real, y: real, w: real, h: real)
    | FillRect(style: Style, x: real, y: real, w: real, h: real)
    | Stroke(style: Style, path: seq<PathOp>)
    | Fill(style: Style, path: seq<PathOp>)
    | Text(style: Style, text: string, at: Point)
    | Picture(style: Style, image: Image, x: real, y: real, w: real, h: real)

  /** The whole observable state of a context, as a value. */
  datatype Canvas = Canvas(style: Style, path: seq<PathOp>, saved: seq<Style>, log: seq<DrawCmd>)

  /** The state of a freshly created context (the HTML canvas defaults). */
  const InitialStyle := Style(Css("#000000"), "#000000", 1.0, 1.0, Font("", 10, Plain("sans-serif")),
                              "start", "alphabetic", "rgba(0, 0, 0, 0)", 0.0, 0.0, 0.0)

  /** `ctx.save()` on a state value. */
  function Saved(c: Canvas): Canvas {
    c.(saved := c.saved + [c.style])
  }

  /** `ctx.restore()` on a state value: pops the last saved style, if any. */
  function Restored(c: Canvas): Canvas {
    if c.saved == [] then c
    else c.(style := c.saved[|c.saved| - 1], saved := c.saved[..|c.saved| - 1])
  }

  /** The state with its style replaced: a run of property assignments
      such as `ctx.fillStyle = …`. */
  function WithStyle(c: Canvas, s: Style): Canvas {
    c.(style := s)
  }

  /** The closed path `ctx.strokeRect(x, y, w, h)` strokes. */
  function RectPath(x: real, y: real, w: real, h: real): seq<PathOp> {
    [MoveTo(Point(x, y)), LineTo(Point(x + w, y)), LineTo(Point(x + w, y + h)), LineTo(Point(x, y + h)), ClosePath]
  }

  /** A new path `path` stroked in the current style. */
  function Stroked(c: Canvas, path: seq<PathOp>): Canvas {
    c.(path := path, log := c.log + [Stroke(c.style, path)])
  }

  /** A new path `path` filled in the current style. */
  function Filled(c: Canvas, path: seq<PathOp>): Canvas {
    c.(path := path, log := c.log + [Fill(c.style, path)])
  }

  /** `fillText(text, x, y)` in the current style. */
  function Written(c: Canvas, text: string, x: real, y: real): Canvas {
    c.(log := c.log + [Text(c.style, text, Point(x, y))])
  }

  /** `fillRect(x, y, w, h)` in the current style. */
  function RectFilled(c: Canvas, x: real, y: real, w: real, h: real): Canvas {
    c.(log := c.log + [FillRect(c.style, x, y, w, h)])
  }

  /** `drawImage(image, x, y, w, h)` in the current style. */
  function Pictured(c: Canvas, image: Image, x: real, y: real, w: real, h: real): Canvas {
    c.(log := c.log + [Picture(c.style, image, x, y, w, h)])
  }

  /** A drawing between `save()` and `restore()` that changes no style leaves
      the save stack as it was. */
  lemma SavedScope(c: Canvas, path: seq<PathOp>)
    ensures Restored(Stroked(Saved(c), path)) == Stroked(c, path)
    ensures Restored(Filled(Saved(c), path)) == Filled(c, path)
  {
    assert (c.saved + [c.style])[..|c.saved|] == c.saved;
  }

  /** Restoring right after saving gives back the same state. */
  lemma RestoreSave(c: Canvas)
    ensures Restored(Saved(c)) == c
  {
    assert (c.saved + [c.style])[..|c.saved|] == c.saved;
  }

  class Context {
    const width: real
    const height: real
    var style: Style
    var path: seq<PathOp>
    var saved: seq<Style>
    var log: seq<DrawCmd>

    function State(): Canvas
      reads this
    {
      Canvas(style, path, saved, log)
    }

    constructor (w: real, h: real)
      ensures width == w && height == h
      ensures State() == Canvas(InitialStyle, [], [], [])
    {
      width, height := w, h;
      style, path, saved, log := InitialStyle, [], [], [];
    }

    method ClearRect(x: real, y: real, w: real, h: real)
      modifies this
      ensures State() == old(State()).(log := old(log) + [Clear(x, y, w, h)])
    {
      log := log + [Clear(x, y, w, h)];
    }

    method FillRect(x: real, y: real, w: real, h: real)
      modifies this
      ensures State() == old(State()).(log := old(log) + [DrawCmd.FillRect(style, x, y, w, h)])
    {
      log := log + [DrawCmd.FillRect(style, x, y, w, h)];
    }

    /** `ctx.strokeRect(x, y, w, h)`: strokes a rectangle without touching
        the current path. */
    method StrokeRect(x: real, y: real, w: real, h: real)
      modifies this
      ensures State() == old(State()).(log := old(log) + [DrawCmd.Stroke(style, RectPath(x, y, w, h))])
    {
      log := log + [DrawCmd.Stroke(style, RectPath(x, y, w, h))];
    }

    method BeginPath()
      modifies this
      ensures State() == old(State()).(path := [])
    {
      path := [];
    }

    method MoveTo(x: real, y: real)
      modifies this
      ensures State() == old(State()).(path := old(path) + [PathOp.MoveTo(Point(x, y))])
    {
      path := path + [PathOp.MoveTo(Point(x, y))];
    }

    method LineTo(x: real, y: real)
      modifies this
      ensures State() == old(State()).(path := old(path) + [PathOp.LineTo(Point(x, y))])
    {
      path := path + [PathOp.LineTo(Point(x, y))];
    }

    method QuadraticCurveTo(cx: real, cy: real, x: real, y: real)
      modifies this
      ensures State() == old(State()).(path := old(path) + [QuadTo(Point(cx, cy), Point(x, y))])
    {
      path := path + [QuadTo(Point(cx, cy), Point(x, y))];
    }

    /** `ctx.arc(x, y, r, 0, Math.PI * 2)`: a full circle. */
    method Arc(x: real, y: real, r: real)
      modifies this
      ensures State() == old(State()).(path := old(path) + [Circle(Point(x, y), r)])
    {
      path := path + [Circle(Point(x, y), r)];
    }

    method ClosePath()
      modifies this
      ensures State() == old(State()).(path := old(path) + [PathOp.ClosePath])
    {
      path := path + [PathOp.ClosePath];
    }

    method Stroke()
      modifies this
      ensures State() == old(State()).(log := old(log) + [DrawCmd.Stroke(style, path)])
    {
      log := log + [DrawCmd.Stroke(style, path)];
    }

    method Fill()
      modifies this
      ensures State() == old(State()).(log := old(log) + [DrawCmd.Fill(style, path)])
    {
      log := log + [DrawCmd.Fill(style, path)];
    }

    method FillText(text: string, x: real, y: real)
      modifies this
      ensures State() == old(State()).(log := old(log) + [Text(style, text, Point(x, y))])
    {
      log := log + [Text(style, text, Point(x, y))];
    }

    method DrawImage(image: Image, x: real, y: real, w: real, h: real)
      modifies this
      ensures State() == old(State()).(log := old(log) + [Picture(style, image, x, y, w, h)])
    {
      log := log + [Picture(style, image, x, y, w, h)];
    }

    method Save()
      modifies this
      ensures State() == Saved(old(State()))
    {
      saved := saved + [style];
    }

    method Restore()
      modifies this
      ensures State() == Restored(old(State()))
    {
      if saved != [] {
        style := saved[|saved| - 1];
        saved := saved[..|saved| - 1];
      }
    }
  }
}
