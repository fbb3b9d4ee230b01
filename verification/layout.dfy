/** Caption placement: the recursive word wrap of `drawText` in meme.js.

    The drawing context is reduced to a `Pen`: the canvas size, the line step
    (the effective font size) and an abstract text measurement. The recursion
    is bounded by `fuel`, which stands for the JavaScript call-stack depth:
    running out of it is the `RangeError` the browser throws, and `Place`
    reports it as `None`. */
module Layout {
  import opened Base
  import opened Words

  /** The caption anchor: `'top'` or `'bottom'`. */
  datatype Position = Top | Bottom

  /** The drawing context as `drawText` sees it. */
  datatype Pen = Pen(width: nat, height: nat, step: real, measure: string -> real)

  /** One drawn caption line: its text and its baseline. */
  datatype Line = Line(text: string, y: real)

  /** The primitive operations the renderer issues to the canvas. */
  datatype DrawOp =
    | Resize(width: nat, height: nat)
    | Blit
    | Style(fill: string, stroke: string, lineWidth: real, align: string, bold: bool, px: real, family: string)
    | Fill(text: string, x: real, y: real, maxWidth: real)
    | Stroke(text: string, x: real, y: real, maxWidth: real)

  /** `measureText(s).width > canvas.width`: the test that starts wrapping. */
  predicate Overflows(pen: Pen, s: string) {
    pen.measure(s) > pen.width as real
  }

  /** `measureText(s).width < canvas.width * 1.0`: the test a wrapped line must pass. */
  predicate Fits(pen: Pen, s: string) {
    pen.measure(s) < pen.width as real
  }

  /** The top-caption candidate of the first `j` words passes the line test. */
  predicate PrefixFits(pen: Pen, words: seq<string>, j: nat)
    requires j <= |words|
  {
    Fits(pen, Join(words[..j]))
  }

  /** The bottom-caption candidate without the first `j` words passes the line test. */
  predicate SuffixFits(pen: Pen, words: seq<string>, j: nat)
    requires j <= |words|
  {
    Fits(pen, Join(words[j..]))
  }

  /** The horizontal anchor `canvas.width / 2`. */
  function CenterX(pen: Pen): real {
    pen.width as real / 2.0
  }

  /** The `maxWidth` clamp `canvas.width * .95` passed to both text primitives. */
  function MaxWidth(pen: Pen): real {
    pen.width as real * 0.95
  }

  /** The baseline used when no y is given: the top edge or the bottom edge. */
  function StartY(pen: Pen, pos: Position, y: Option<real>): (r: real)
    ensures y.Some? ==> r == y.value
    ensures y.None? && pos == Top ==> r == 0.0
    ensures y.None? && pos == Bottom ==> r == pen.height as real
  {
    match y
    case Some(v) => v
    case None => if pos == Bottom then pen.height as real else 0.0
  }

  /** The baseline of the `k`-th line of a caption anchored at `y`: each line
      is one step further from the anchoring edge than the previous one. */
  function LineY(pos: Position, y: real, step: real, k: nat): real {
    if pos == Top then y + k as real * step else y - k as real * step
  }

  /** The top-caption search `i = n; while (i--)`: among the word prefixes of
      length `i - 1` down to `0`, the longest whose text fits. */
  function PrefixCut(pen: Pen, words: seq<string>, i: nat): (r: Option<nat>)
    requires i <= |words|
    ensures r.Some? ==> r.value < i && PrefixFits(pen, words, r.value)
    ensures r.Some? ==> forall j :: r.value < j < i ==> !PrefixFits(pen, words, j)
    ensures r.None? ==> forall j :: 0 <= j < i ==> !PrefixFits(pen, words, j)
    decreases i
  {
    if i == 0 then None
    else if PrefixFits(pen, words, i - 1) then Some(i - 1)
    else PrefixCut(pen, words, i - 1)
  }

  /** The bottom-caption search `for (i = from; i < n; i++)`: among the word
      suffixes dropping `from` up to `n - 1` leading words, the longest whose
      text fits. The empty suffix is never tried. */
  function SuffixCut(pen: Pen, words: seq<string>, from: nat): (r: Option<nat>)
    requires from <= |words|
    ensures r.Some? ==> from <= r.value < |words| && SuffixFits(pen, words, r.value)
    ensures r.Some? ==> forall j :: from <= j < r.value ==> !SuffixFits(pen, words, j)
    ensures r.None? ==> forall j :: from <= j < |words| ==> !SuffixFits(pen, words, j)
    decreases |words| - from
  {
    if from == |words| then None
    else if SuffixFits(pen, words, from) then Some(from)
    else SuffixCut(pen, words, from + 1)
  }

  /** `drawText(text, pos, y)` with an explicit baseline, as the lines it draws.

      A caption that does not overflow is one line at `y`. An overflowing one
      is split into words; the top caption draws its longest fitting proper
      prefix at `y` and places the remaining words one step lower, the bottom
      caption draws its longest fitting proper suffix at `y` and places the
      leading words one step higher. When no candidate fits, the whole text is
      drawn as one line. */
  function Place(fuel: nat, pen: Pen, text: string, pos: Position, y: real): (r: Option<seq<Line>>)
    ensures fuel > 0 && !Overflows(pen, text) ==> r == Some([Line(text, y)])
    ensures fuel == 0 ==> r.None?
    ensures r.Some? ==> |r.value| >= 1 && r.value[0].y == y
    ensures r.Some? ==> forall k :: 0 <= k < |r.value| ==> r.value[k].y == LineY(pos, y, pen.step, k)
    decreases fuel, 1
  {
    if fuel == 0 then None
    else if !Overflows(pen, text) then Some([Line(text, y)])
    else Wrap(fuel, pen, text, pos, y)
  }

  /** The wrapping branch of `drawText`, for a caption that overflows: the
      words are searched for a cut, the fitting part is drawn at `y` and the
      rest placed from the next baseline with one call less of stack. */
  function Wrap(fuel: nat, pen: Pen, text: string, pos: Position, y: real): (r: Option<seq<Line>>)
    requires fuel > 0
    ensures r.Some? ==> |r.value| >= 1 && r.value[0].y == y
    ensures r.Some? ==> forall k :: 0 <= k < |r.value| ==> r.value[k].y == LineY(pos, y, pen.step, k)
    decreases fuel, 0
  {
    var words := Split(text);
    match pos
    case Top =>
      (match PrefixCut(pen, words, |words|)
       case None => Some([Line(text, y)])
       case Some(i) =>
         Stack(pos, y, pen.step,
               Place(fuel - 1, pen, Join(words[..i]), Top, y),
               Place(fuel - 1, pen, Join(words[i..]), Top, y + pen.step)))
    case Bottom =>
      (match SuffixCut(pen, words, 0)
       case None => Some([Line(text, y)])
       case Some(i) =>
         Stack(pos, y, pen.step,
               Place(fuel - 1, pen, Join(words[i..]), Bottom, y),
               Place(fuel - 1, pen, Join(words[..i]), Bottom, y - pen.step)))
  }

  /** One line drawn at `y` followed by the lines placed from the next
      baseline; the overflow of either call propagates. */
  function Stack(pos: Position, y: real, step: real, head: Option<seq<Line>>, tail: Option<seq<Line>>): (r: Option<seq<Line>>)
    requires head.Some? ==> |head.value| == 1 && head.value[0].y == y
    requires tail.Some? ==> forall k :: 0 <= k < |tail.value| ==> tail.value[k].y == LineY(pos, LineY(pos, y, step, 1), step, k)
    ensures r.Some? <==> head.Some? && tail.Some?
    ensures r.Some? ==> r.value == head.value + tail.value
    ensures r.Some? ==> forall k :: 0 <= k < |r.value| ==> r.value[k].y == LineY(pos, y, step, k)
  {
    if head.None? || tail.None? then None
    else
      StepShift(pos, y, step, tail.value);
      Some(head.value + tail.value)
  }

  /** Lines stepped from the next baseline are stepped from `y` when one line
      at `y` precedes them. */
  lemma StepShift(pos: Position, y: real, step: real, tail: seq<Line>)
    requires forall k :: 0 <= k < |tail| ==> tail[k].y == LineY(pos, LineY(pos, y, step, 1), step, k)
    ensures forall k :: 0 <= k < |tail| ==> tail[k].y == LineY(pos, y, step, k + 1)
  {
    forall k | 0 <= k < |tail|
      ensures tail[k].y == LineY(pos, y, step, k + 1)
    {
      assert (k + 1) as real * step == k as real * step + step;
    }
  }

  /** The fill and then the stroke of each line, centred, clamped to 95% of the width. */
  function Render(pen: Pen, lines: seq<Line>): (ops: seq<DrawOp>)
    ensures |ops| == 2 * |lines|
    ensures forall k :: 0 <= k < |lines| ==>
      ops[2 * k] == Fill(lines[k].text, CenterX(pen), lines[k].y, MaxWidth(pen)) &&
      ops[2 * k + 1] == Stroke(lines[k].text, CenterX(pen), lines[k].y, MaxWidth(pen))
  {
    if |lines| == 0 then []
    else
      var x, w := CenterX(pen), MaxWidth(pen);
      var rest := Render(pen, lines[1..]);
      assert forall k :: 1 <= k < |lines| ==> rest[2 * (k - 1)] == Fill(lines[k].text, x, lines[k].y, w);
      [Fill(lines[0].text, x, lines[0].y, w), Stroke(lines[0].text, x, lines[0].y, w)] + rest
  }

  /** `drawText(text, pos, y)` as the canvas operations it issues; an absent
      `y` defaults to the top or bottom edge. `None` is the stack overflow. */
  function DrawText(fuel: nat, pen: Pen, text: string, pos: Position, y: Option<real>): (r: Option<seq<DrawOp>>)
    ensures fuel > 0 && !Overflows(pen, text) ==>
      r == Some([Fill(text, CenterX(pen), StartY(pen, pos, y), MaxWidth(pen)),
                 Stroke(text, CenterX(pen), StartY(pen, pos, y), MaxWidth(pen))])
    ensures r.Some? ==> |r.value| >= 2 && r.value[0].Fill? && r.value[0].y == StartY(pen, pos, y)
  {
    match Place(fuel, pen, text, pos, StartY(pen, pos, y))
    case None => None
    case Some(lines) =>
      var ops := Render(pen, lines);
      assert |lines| == 1 ==> ops == [ops[0], ops[1]];
      Some(ops)
  }
}
