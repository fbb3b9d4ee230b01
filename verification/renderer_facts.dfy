/** Properties of a full redraw: what it draws, in which order, and when it
    completes. */
module RendererFacts {
  import opened Base
  import opened Words
  import opened Layout
  import opened LayoutFacts
  import opened Fonts
  import opened Renderer

  /** `lines` lay out `text` anchored at `y0`: read in order (top) or in
      reverse (bottom) they rejoin into `text`, and each is one `step` further
      from the anchoring edge than the one before. */
  ghost predicate Caption(lines: seq<Line>, text: string, pos: Position, y0: real, step: real) {
    && |lines| >= 1
    && Join(ReadingOrder(pos, Texts(lines))) == text
    && forall k :: 0 <= k < |lines| ==> lines[k].y == LineY(pos, y0, step, k)
  }

  /** The placement of one caption by a redraw, when it completes, lays out
      exactly that caption from its edge. */
  lemma CaptionPlaced(pen: Pen, text: string, pos: Position, fuel: nat)
    requires DrawText(fuel, pen, text, pos, None).Some?
    ensures var lines := Place(fuel, pen, text, pos, StartY(pen, pos, None)).value;
            && DrawText(fuel, pen, text, pos, None) == Some(Render(pen, lines))
            && Caption(lines, text, pos, StartY(pen, pos, None), pen.step)
  {
    PreservesWords(fuel, pen, text, pos, StartY(pen, pos, None));
  }

  /** A completed redraw resizes the canvas to the image, blits it, sets the
      style, draws the top caption downwards from y = 0 and then the bottom
      caption upwards from y = image height, both laid out by `Place` and
      stepping by the effective font size of the new height: an eighth of it
      for the automatic size. */
  lemma RedrawDraws(st: State, host: Host)
    requires st.inited && st.image.Some? && st.canvas.Some?
    requires Redraw(st, host).error.None?
    ensures var img := st.image.value;
            var pen := PenFor(st.font, img, host);
            var top := Place(host.depth, pen, st.topText, Top, 0.0);
            var bottom := Place(host.depth, pen, st.bottomText, Bottom, img.height as real);
            && pen.step == (if st.font.fontSize == -1.0 then img.height as real / 8.0 else st.font.fontSize)
            && top.Some? && bottom.Some?
            && Caption(top.value, st.topText, Top, 0.0, pen.step)
            && Caption(bottom.value, st.bottomText, Bottom, img.height as real, pen.step)
            && Redraw(st, host).ops == Prelude(st.font, img) + Render(pen, top.value) + Render(pen, bottom.value)
  {
    var img := st.image.value;
    var pen := PenFor(st.font, img, host);
    CaptionPlaced(pen, st.topText, Top, host.depth);
    CaptionPlaced(pen, st.bottomText, Bottom, host.depth);
  }

  /** A redraw completes when the call stack is deeper than either caption
      has words and every word of the top caption fits on its own. */
  lemma RedrawCompletes(st: State, host: Host)
    requires st.inited && st.image.Some? && st.canvas.Some?
    requires host.depth > |Split(st.topText)| && host.depth > |Split(st.bottomText)|
    requires WordsFit(PenFor(st.font, st.image.value, host), Split(st.topText))
    ensures Redraw(st, host).error.None?
  {
    var pen := PenFor(st.font, st.image.value, host);
    TopTerminates(host.depth, pen, st.topText, 0.0);
    BottomTerminates(host.depth, pen, st.bottomText, pen.height as real);
  }

  /** A one-word top caption wider than the canvas, on a canvas where the
      empty string fits, makes every redraw overflow the call stack after
      the image is drawn, however deep the stack. */
  lemma RedrawOverwideTopWord(st: State, host: Host)
    requires st.inited && st.image.Some? && st.canvas.Some?
    requires NoSpace(st.topText)
    requires Overflows(PenFor(st.font, st.image.value, host), st.topText)
    requires Fits(PenFor(st.font, st.image.value, host), "")
    ensures Redraw(st, host).error == Some(CallStackExceeded)
    ensures Redraw(st, host).ops == Prelude(st.font, st.image.value)
  {
    OverwideTopWordDiverges(host.depth, PenFor(st.font, st.image.value, host), st.topText, 0.0);
  }

  /** Giving an image draws nothing; the redraw comes with its load event,
      which sizes the canvas to the loaded image. */
  lemma ImageDrawnOnLoad(st: State, arg: ImageArg, loaded: Image, host: Host)
    requires st.inited && st.canvas.Some? && !arg.NotAnImage?
    ensures SetImage(st, arg).ops == [] && SetImage(st, arg).error.None?
    ensures var after := ImageLoaded(SetImage(st, arg).state, loaded, host);
            && after.state.canvas == Some(Canvas(loaded.width, loaded.height))
            && |after.ops| >= 3 && after.ops[..3] == Prelude(st.font, loaded)
  {
  }

  /** Setting the top text redraws with the new caption laid out from the
      top edge, and the bottom caption as before. */
  lemma SetTopTextDraws(st: State, text: string, host: Host)
    requires st.inited && st.image.Some? && st.canvas.Some?
    requires SetTopText(st, text, host).error.None?
    ensures var img := st.image.value;
            var pen := PenFor(st.font, img, host);
            var top := Place(host.depth, pen, text, Top, 0.0);
            var bottom := Place(host.depth, pen, st.bottomText, Bottom, img.height as real);
            && top.Some? && bottom.Some?
            && Caption(top.value, text, Top, 0.0, pen.step)
            && SetTopText(st, text, host).ops == Prelude(st.font, img) + Render(pen, top.value) + Render(pen, bottom.value)
  {
    RedrawDraws(st.(topText := text), host);
  }

  /** Setting the bottom text redraws with the top caption as before and the
      new caption laid out from the bottom edge. */
  lemma SetBottomTextDraws(st: State, text: string, host: Host)
    requires st.inited && st.image.Some? && st.canvas.Some?
    requires SetBottomText(st, text, host).error.None?
    ensures var img := st.image.value;
            var pen := PenFor(st.font, img, host);
            var top := Place(host.depth, pen, st.topText, Top, 0.0);
            var bottom := Place(host.depth, pen, text, Bottom, img.height as real);
            && top.Some? && bottom.Some?
            && Caption(bottom.value, text, Bottom, img.height as real, pen.step)
            && SetBottomText(st, text, host).ops == Prelude(st.font, img) + Render(pen, top.value) + Render(pen, bottom.value)
  {
    RedrawDraws(st.(bottomText := text), host);
  }

  /** Setting the font redraws both captions with the merged font: its style
      and its line step. */
  lemma SetFontDraws(st: State, p: FontPatch, host: Host)
    requires WellTyped(p)
    requires st.inited && st.image.Some? && st.canvas.Some?
    requires SetFont(st, p, host).error.None?
    ensures var img := st.image.value;
            var font := Merge(st.font, p);
            var pen := PenFor(font, img, host);
            var top := Place(host.depth, pen, st.topText, Top, 0.0);
            var bottom := Place(host.depth, pen, st.bottomText, Bottom, img.height as real);
            && top.Some? && bottom.Some?
            && Caption(top.value, st.topText, Top, 0.0, pen.step)
            && Caption(bottom.value, st.bottomText, Bottom, img.height as real, pen.step)
            && SetFont(st, p, host).ops == Prelude(font, img) + Render(pen, top.value) + Render(pen, bottom.value)
  {
    RedrawDraws(st.(font := Merge(st.font, p)), host);
  }
}
