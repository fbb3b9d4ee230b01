/** The renderer of meme.js as an explicit state and pure transitions.

    Every operation returns an `Outcome`: the state after the call, the canvas
    operations it issued, and the error it threw, if any. What the browser
    supplies is a `Host`: the text measurement of the drawing context under
    the current font, and the call-stack depth available to `drawText`. */
module Renderer {
  import opened Base
  import opened Layout
  import opened Fonts

  /** A canvas element, by its pixel size. */
  datatype Canvas = Canvas(width: nat, height: nat)

  /** An image element, by its size; an image still loading has size 0 x 0. */
  datatype Image = Image(width: nat, height: nat)

  /** What `setCanvas` may be given, once any element id or jQuery wrapper has
      been resolved: a canvas element or something else. */
  datatype CanvasArg = CanvasElement(canvas: Canvas) | NotACanvas

  /** What `setImage` may be given: an image element, a source string to load,
      or something else. */
  datatype ImageArg = ImageElement(image: Image) | Source(src: string) | NotAnImage

  /** What the renderer can throw. `MissingImage` and `MissingCanvas` are the
      `TypeError`s of drawing with no image or no canvas; `CallStackExceeded`
      is the `RangeError` of a caption placement that never ends. */
  datatype Error = InvalidCanvas | InvalidImage | MissingImage | MissingCanvas | CallStackExceeded

  /** The `_meme` closure state. The drawing context is derived from the canvas. */
  datatype State = State(
    inited: bool,
    canvas: Option<Canvas>,
    image: Option<Image>,
    topText: string,
    bottomText: string,
    font: Font)

  const InitialState := State(false, None, None, "", "", DefaultFont)

  datatype Host = Host(depth: nat, measure: string -> real)

  datatype Outcome = Outcome(state: State, ops: seq<DrawOp>, error: Option<Error>)

  /** The drawing context once the canvas has been resized to `img`: the line
      step is the effective font size for the new height. */
  function PenFor(font: Font, img: Image, host: Host): Pen {
    Pen(img.width, img.height, EffectiveSize(font, img.height), host.measure)
  }

  /** `drawImage` together with `resetFont`: resize the canvas to the image,
      blit it, and set the text style; the style's pixel size is the
      effective size scaled by the spacing multiplier. */
  function Prelude(font: Font, img: Image): (ops: seq<DrawOp>)
    ensures |ops| == 3 && ops[0] == Resize(img.width, img.height) && ops[1] == Blit
    ensures ops[2].Style? && ops[2].px == EffectiveSize(font, img.height) * font.spacingMultiplier
  {
    [Resize(img.width, img.height), Blit,
     Style(font.fillStyle, font.strokeStyle, font.strokeWidth, font.textAlign, font.bold,
           EffectiveSize(font, img.height) * font.spacingMultiplier, font.family)]
  }

  /** `redraw()`: nothing before initialisation; otherwise the image, then the
      top caption from the top edge, then the bottom caption from the bottom
      edge. Drawing with no image or no canvas throws. */
  function Redraw(st: State, host: Host): (r: Outcome)
    ensures !st.inited ==> r == Outcome(st, [], None)
    ensures st.inited && st.image.None? ==> r == Outcome(st, [], Some(MissingImage))
    ensures st.inited && st.image.Some? && st.canvas.None? ==> r == Outcome(st, [], Some(MissingCanvas))
    ensures r.state.(canvas := st.canvas) == st
    ensures st.inited && st.image.Some? && st.canvas.Some? ==>
      && r.state == st.(canvas := Some(Canvas(st.image.value.width, st.image.value.height)))
      && |r.ops| >= 3 && r.ops[..3] == Prelude(st.font, st.image.value)
      && (r.error.None? || r.error == Some(CallStackExceeded))
  {
    if !st.inited then Outcome(st, [], None)
    else if st.image.None? then Outcome(st, [], Some(MissingImage))
    else if st.canvas.None? then Outcome(st, [], Some(MissingCanvas))
    else
      var img := st.image.value;
      var st' := st.(canvas := Some(Canvas(img.width, img.height)));
      var pen := PenFor(st.font, img, host);
      var prelude := Prelude(st.font, img);
      match DrawText(host.depth, pen, st.topText, Top, None)
      case None => Outcome(st', prelude, Some(CallStackExceeded))
      case Some(top) =>
        match DrawText(host.depth, pen, st.bottomText, Bottom, None)
        case None => Outcome(st', prelude + top, Some(CallStackExceeded))
        case Some(bottom) => Outcome(st', prelude + top + bottom, None)
  }

  /** `setCanvas(c)`: a non-canvas throws before anything is assigned; a
      canvas is stored and the renderer redraws. */
  function SetCanvas(st: State, arg: CanvasArg, host: Host): (r: Outcome)
    ensures arg.NotACanvas? ==> r == Outcome(st, [], Some(InvalidCanvas))
    ensures arg.CanvasElement? ==> r == Redraw(st.(canvas := Some(arg.canvas)), host)
  {
    match arg
    case NotACanvas => Outcome(st, [], Some(InvalidCanvas))
    case CanvasElement(c) => Redraw(st.(canvas := Some(c)), host)
  }

  /** `setImage(i)`: a non-image throws before anything is assigned; a source
      string becomes a new image that is still loading; nothing is drawn. */
  function SetImage(st: State, arg: ImageArg): (r: Outcome)
    ensures r.ops == []
    ensures arg.NotAnImage? ==> r == Outcome(st, [], Some(InvalidImage))
    ensures arg.ImageElement? ==> r == Outcome(st.(image := Some(arg.image)), [], None)
    ensures arg.Source? ==> r == Outcome(st.(image := Some(Image(0, 0))), [], None)
  {
    match arg
    case NotAnImage => Outcome(st, [], Some(InvalidImage))
    case ImageElement(img) => Outcome(st.(image := Some(img)), [], None)
    case Source(_) => Outcome(st.(image := Some(Image(0, 0))), [], None)
  }

  /** The `load` event of the stored image: it now has its natural size, and
      the renderer redraws with whatever state is current. */
  function ImageLoaded(st: State, loaded: Image, host: Host): (r: Outcome)
    requires st.image.Some?
    ensures r.state.(canvas := st.canvas) == st.(image := Some(loaded))
    ensures st.inited && st.canvas.Some? ==>
      r.state.canvas == Some(Canvas(loaded.width, loaded.height)) && |r.ops| >= 3 && r.ops[..3] == Prelude(st.font, loaded)
  {
    Redraw(st.(image := Some(loaded)), host)
  }

  /** `setTopText(t)`: stored verbatim, then a redraw with the new caption. */
  function SetTopText(st: State, text: string, host: Host): (r: Outcome)
    ensures r.state.(canvas := st.canvas) == st.(topText := text)
    ensures st.inited && st.image.None? ==> r.ops == [] && r.error == Some(MissingImage)
    ensures st.inited && st.image.Some? && st.canvas.None? ==> r.ops == [] && r.error == Some(MissingCanvas)
    ensures !st.inited ==> r.ops == [] && r.error.None?
    ensures st.inited && st.image.Some? && st.canvas.Some? ==>
      && |r.ops| >= 3 && r.ops[..3] == Prelude(st.font, st.image.value)
      && (r.error.None? || r.error == Some(CallStackExceeded))
  {
    Redraw(st.(topText := text), host)
  }

  /** `setBottomText(t)`: stored verbatim, then a redraw with the new caption. */
  function SetBottomText(st: State, text: string, host: Host): (r: Outcome)
    ensures r.state.(canvas := st.canvas) == st.(bottomText := text)
    ensures st.inited && st.image.None? ==> r.ops == [] && r.error == Some(MissingImage)
    ensures st.inited && st.image.Some? && st.canvas.None? ==> r.ops == [] && r.error == Some(MissingCanvas)
    ensures !st.inited ==> r.ops == [] && r.error.None?
    ensures st.inited && st.image.Some? && st.canvas.Some? ==>
      && |r.ops| >= 3 && r.ops[..3] == Prelude(st.font, st.image.value)
      && (r.error.None? || r.error == Some(CallStackExceeded))
  {
    Redraw(st.(bottomText := text), host)
  }

  /** `setFont(p)`: merged key by key, then a redraw in the new style. */
  function SetFont(st: State, p: FontPatch, host: Host): (r: Outcome)
    requires WellTyped(p)
    ensures r.state.(canvas := st.canvas) == st.(font := Merge(st.font, p))
    ensures st.inited && st.image.None? ==> r.ops == [] && r.error == Some(MissingImage)
    ensures st.inited && st.image.Some? && st.canvas.None? ==> r.ops == [] && r.error == Some(MissingCanvas)
    ensures !st.inited ==> r.ops == [] && r.error.None?
    ensures st.inited && st.image.Some? && st.canvas.Some? ==>
      && |r.ops| >= 3 && r.ops[..3] == Prelude(Merge(st.font, p), st.image.value)
      && (r.error.None? || r.error == Some(CallStackExceeded))
  {
    Redraw(st.(font := Merge(st.font, p)), host)
  }

  /** The constructor's options bag. `None` is an absent option (`undefined`
      or `null`). An empty string is the one other falsy value a text or an
      image source can be; it is written `Some("")` and skipped like an
      absent option, as `GivenText` and `GivenImage` say. */
  datatype Options = Options(
    canvas: Option<CanvasArg>,
    image: Option<ImageArg>,
    topText: Option<string>,
    bottomText: Option<string>,
    font: Option<FontPatch>)

  /** JavaScript truthiness of a string option: the empty string is skipped. */
  predicate GivenText(t: Option<string>) {
    t.Some? && t.value != ""
  }

  /** JavaScript truthiness of the image option: an empty source string is skipped. */
  predicate GivenImage(i: Option<ImageArg>) {
    i.Some? && !(i.value.Source? && i.value.src == "")
  }

  /** The canvas option, when present, is a canvas element. */
  predicate CanvasOk(opts: Options) {
    opts.canvas.Some? ==> opts.canvas.value.CanvasElement?
  }

  /** The image option, when given, is an image element or a source string. */
  predicate ImageOk(opts: Options) {
    GivenImage(opts.image) ==> !opts.image.value.NotAnImage?
  }

  /** The state a successful construction must reach: every given option in
      its field, the defaults elsewhere, and the renderer initialised. */
  function Configured(opts: Options): State
    requires CanvasOk(opts) && ImageOk(opts)
    requires opts.font.Some? ==> WellTyped(opts.font.value)
  {
    State(
      true,
      if opts.canvas.Some? then Some(opts.canvas.value.canvas) else None,
      if !GivenImage(opts.image) then None
      else if opts.image.value.Source? then Some(Image(0, 0))
      else Some(opts.image.value.image),
      if opts.topText.Some? then opts.topText.value else "",
      if opts.bottomText.Some? then opts.bottomText.value else "",
      if opts.font.Some? then Merge(DefaultFont, opts.font.value) else DefaultFont)
  }

  /** `construct(opts)`: the canvas, image, top text, bottom text and font
      options, each applied through its setter in that order, and only then
      the renderer marked initialised. The constructor throws the first
      setter error. */
  function Construct(opts: Options, host: Host): (r: Result<Outcome, Error>)
    requires opts.font.Some? ==> WellTyped(opts.font.value)
    ensures r.Success? <==> CanvasOk(opts) && ImageOk(opts)
    ensures !CanvasOk(opts) ==> r == Failure(InvalidCanvas)
    ensures CanvasOk(opts) && !ImageOk(opts) ==> r == Failure(InvalidImage)
    ensures r.Success? ==> r.value.ops == [] && r.value.error.None?
    ensures r.Success? ==> r.value.state == Configured(opts)
  {
    var o1 := if opts.canvas.Some? then SetCanvas(InitialState, opts.canvas.value, host)
              else Outcome(InitialState, [], None);
    match o1.error case Some(e) => Failure(e) case None =>
    var o2 := if GivenImage(opts.image) then SetImage(o1.state, opts.image.value)
              else Outcome(o1.state, [], None);
    match o2.error case Some(e) => Failure(e) case None =>
    var o3 := if GivenText(opts.topText) then SetTopText(o2.state, opts.topText.value, host)
              else Outcome(o2.state, [], None);
    match o3.error case Some(e) => Failure(e) case None =>
    var o4 := if GivenText(opts.bottomText) then SetBottomText(o3.state, opts.bottomText.value, host)
              else Outcome(o3.state, [], None);
    match o4.error case Some(e) => Failure(e) case None =>
    var o5 := if opts.font.Some? then SetFont(o4.state, opts.font.value, host)
              else Outcome(o4.state, [], None);
    match o5.error case Some(e) => Failure(e) case None =>
    Success(Outcome(o5.state.(inited := true), o1.ops + o2.ops + o3.ops + o4.ops + o5.ops, None))
  }
}
