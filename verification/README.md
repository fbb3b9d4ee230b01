# Meme.js caption layout, modelled in Dafny

Meme.js draws a captioned image on an HTML canvas. A `window.Meme(opts)`
renderer holds a canvas, a source image, a top and a bottom caption and a font
configuration. Every change except `setImage` redraws everything; a new image
is drawn when its load event fires. A redraw resizes the canvas to
the image, blits the image, sets the text style, and then places the two
captions. Placement is a recursive word wrap (`drawText`). The top caption
grows downwards from the top edge. The bottom caption grows upwards from the
bottom edge.

The model is pure and functional:

- `words.dfy` (`Words`): `split(' ')` and `join(' ')` on strings, with both
  round trips.
- `layout.dfy` (`Layout`): `drawText` as `Place`, a recursive function that
  returns the lines it draws. `DrawText` turns those lines into fill/stroke
  operations. The canvas is reduced to a `Pen`: width, height, line step and an
  abstract `measure: string -> real` that stands for `measureText`.
- `layout_facts.dfy` (`LayoutFacts`): lemmas about placement. They cover word
  preservation, the longest-cut choice, termination of the bottom caption,
  termination of the top caption when every word fits, and divergence of the
  top caption.
- `fonts.dfy` (`Fonts`): the eight-key font record, the `setFont` merge (as a
  function and as the source's loop) and `getFontSize`.
- `renderer.dfy` (`Renderer`): the `_meme` closure as an explicit `State`.
  `construct`, the setters, `redraw` and the image `load` event are transitions
  that return an `Outcome`: the new state, the canvas operations issued, and the
  error thrown, if any.
- `renderer_facts.dfy` (`RendererFacts`): what a whole redraw draws, and when
  it completes.

Recursion depth. JavaScript has a finite call stack, so `Place` takes a `fuel`
argument that stands for the remaining depth. When the fuel runs out, `Place`
returns `None`, which stands for the `RangeError` a browser throws. `Redraw`
reports it as `CallStackExceeded`.

Behaviours of the code that are easy to misread:

- Wrapping starts only when the caption measures strictly more than the canvas
  width (meme.js:155). A candidate line is accepted only when it measures
  strictly less (meme.js:169, 179). A caption exactly as wide as the canvas is
  therefore drawn unwrapped.
- The top search starts at n − 1 words, not at n, because of the
  post-decrement in `while (i--)` (meme.js:166-167). It also tries the empty
  prefix.
- A single word wider than the canvas is drawn whole, overflowing, at the
  bottom: the search never tries the empty suffix and falls through to draw
  the whole text (meme.js:177-190). At the top, when the empty string fits,
  it is never drawn: `drawText` draws `''` and then recurses on the same text
  one step lower, with no end (meme.js:167-171).
  `LayoutFacts.OverwideTopWordDiverges` and `LayoutFacts.OverwideWordExample`
  show this. On a canvas where not even the empty string fits, for example
  the zero-width canvas of an image still loading, the top search falls
  through and the word is drawn whole, as at the bottom
  (`LayoutFacts.OverwideTopWordNoRoom`).
- `redraw` checks only the `inited` flag (meme.js:132). If it runs with no
  image or no canvas, the property accesses throw a `TypeError`
  (meme.js:198-200, 94). These are the `MissingImage` and `MissingCanvas`
  errors.
- `construct` sets `inited` after applying the options and does not redraw
  (meme.js:72). The setter redraws it triggers on the way are all no-ops.

## Model

| member | source | states |
|---|---|---|
| Words.Split | meme.js:158 | `split(' ')` always returns at least one piece, no piece contains a space, and there are at most one more pieces than characters |
| Words.Join | meme.js:168 | `join(' ')` of no pieces is the empty string, and a join always starts with its first piece; `JoinSplit` and `SplitJoin` pin it down as the inverse of `split(' ')` |
| Words.JoinAppend | meme.js:168-171 | joining two non-empty runs of words puts exactly one space between their joins |
| Words.JoinSplit | meme.js:158-171 | joining the pieces of a caption with single spaces gives back the caption exactly |
| Words.SplitJoin | meme.js:158-181 | re-splitting a joined non-empty run of space-free words gives back that run |
| Words.SplitWord | meme.js:158 | a caption without spaces is a single word |
| Words.SplitAfterWord | meme.js:158 | a word followed by a space splits off as the first piece |
| Layout.StartY | meme.js:150-152 | an absent y defaults to 0 for the top caption and to the canvas height for the bottom caption; a given y is kept |
| Layout.PrefixCut | meme.js:165-174 | the top search returns the longest word prefix, of at most n − 1 words and possibly empty, that measures strictly less than the width; "none" means no such prefix fits |
| Layout.SuffixCut | meme.js:176-185 | the bottom search returns the longest suffix, dropping 0 to n − 1 leading words, that measures strictly less than the width; "none" means no such suffix fits |
| Layout.Place | meme.js:139-191 | a caption that does not overflow is one line at y; every completed placement draws at least one line; the k-th line lies exactly k line steps below y (top) or above y (bottom) |
| Layout.Wrap | meme.js:155-186 | the wrapping branch draws at least one line, the first at y, and steps each following line exactly one line step further from the edge |
| Layout.Render | meme.js:188-190 | each line becomes a fill and then a stroke of its text at (W/2, y) with maxWidth 0.95·W |
| Layout.DrawText | meme.js:147-190 | when `measure(text) <= W`, the output is exactly one fill/stroke pair of the text at (W/2, default or given y) with maxWidth 0.95·W; any output starts with a fill at that y |
| LayoutFacts.PreservesWords | meme.js:158-181 | joining the drawn lines with single spaces gives back the caption: in drawing order for the top, in reverse drawing order for the bottom |
| LayoutFacts.TopPreservesWords | meme.js:165-172 | the top lines, in drawing order, rejoin into the caption |
| LayoutFacts.BottomPreservesWords | meme.js:176-182 | the bottom lines, in reverse drawing order, rejoin into the caption |
| LayoutFacts.TopOverflow | meme.js:165-173 | an overflowing top caption is either drawn whole because no proper prefix fits, or its first line is the longest fitting prefix of at least one word and the remaining words are placed one font step lower |
| LayoutFacts.BottomOverflow | meme.js:176-190 | an overflowing bottom caption is either drawn whole because no proper suffix fits, or its first line is the longest fitting proper suffix and the leading words are placed one font step higher |
| LayoutFacts.TopStep | meme.js:166-172 | one top step: the prefix is one line at y, then the rest is placed at y + step |
| LayoutFacts.BottomStep | meme.js:177-182 | one bottom step: the suffix is one line at y, then the leading words are placed at y − step |
| LayoutFacts.TopFallsThrough | meme.js:165-190 | when no top prefix fits, the whole caption is drawn as one line |
| LayoutFacts.BottomFallsThrough | meme.js:176-190 | when no bottom suffix fits, the whole caption is drawn as one line |
| LayoutFacts.BottomCutProper | meme.js:177-179 | on an overflowing caption the full text never passes the bottom test, so the bottom cut keeps at least one leading word |
| LayoutFacts.BottomTerminates | meme.js:176-185 | bottom placement always completes when the stack is deeper than the word count, and draws at most one line per word |
| LayoutFacts.TopTerminates | meme.js:155-173 | when every word measures less than the width, top placement completes when the stack is deeper than the word count, draws at most one line per word, and no line overflows |
| LayoutFacts.TopDiverges | meme.js:165-172 | when only the empty prefix fits, top placement never completes, whatever the stack depth |
| LayoutFacts.TopCutProper | meme.js:166-171 | a completed top placement never cuts at zero words |
| LayoutFacts.OverwideTopWordDiverges | meme.js:155-172 | a single word wider than the canvas at the top, with the empty string fitting, never completes |
| LayoutFacts.OverwideTopWordNoRoom | meme.js:155-190 | when not even the empty string fits, a single overwide word at the top is drawn whole as one line, because the search finds no prefix and falls through |
| LayoutFacts.OverwideBottomWordIsDrawn | meme.js:176-190 | the same word at the bottom is drawn at once as one overflowing line |
| LayoutFacts.OverwideWordExample | meme.js:155-190 | on a 3-wide canvas where each character is 1 wide, "abcd" never completes at the top and is drawn whole at the bottom |
| Fonts.EffectiveSize | meme.js:218-220 | `getFontSize` keeps a configured size; for the automatic size -1 it is an eighth of the canvas height |
| Fonts.WithField | meme.js:126 | assigning one font key sets that key and leaves the other seven unchanged |
| Fonts.Merge | meme.js:124-129 | each of the eight keys takes the patch's value when the patch defines it and keeps the old value otherwise |
| Fonts.ApplyPatch | meme.js:124-129 | the source's loop over the eight keys computes the same font as `Merge` |
| Fonts.MergeIdempotent | meme.js:124-129 | applying the same partial configuration twice equals applying it once |
| Fonts.MergeIgnoresUnknownKeys | meme.js:125-127 | names outside the eight font keys do not affect the result |
| Fonts.MergeFillOnly | meme.js:124-127 | a configuration with only a fill colour changes only the fill colour |
| Renderer.Prelude | meme.js:197-216 | a redraw first resizes the canvas to the image, then blits it, then sets a style whose pixel size is the effective size times the spacing multiplier |
| Renderer.Redraw | meme.js:131-137 | a redraw does nothing before initialisation; with no image or no canvas it throws and changes nothing; otherwise the canvas takes the image's size, the output begins with the prelude, and only a stack overflow can fail it; it changes nothing but the canvas |
| Renderer.SetCanvas | meme.js:75-91 | a non-canvas throws `InvalidCanvas` and leaves the state unchanged; a canvas is stored and then a redraw follows |
| Renderer.SetImage | meme.js:98-112 | it never draws; a non-image throws `InvalidImage` and leaves the state unchanged; an image element is stored; a source string stores a new, still-loading 0×0 image |
| Renderer.ImageLoaded | meme.js:193-195 | the load event stores the loaded image and redraws; once initialised with a canvas, the canvas takes the loaded image's size and the prelude is drawn |
| Renderer.SetTopText | meme.js:114-117 | the top text is stored verbatim and nothing but the canvas size changes otherwise; the redraw that follows does nothing before initialisation; once initialised, with no image or no canvas it draws nothing and throws `MissingImage` or `MissingCanvas`, and with both it begins with the prelude and fails only on a stack overflow |
| Renderer.SetBottomText | meme.js:119-122 | the bottom text is stored verbatim and nothing but the canvas size changes otherwise; the redraw that follows does nothing before initialisation; once initialised, with no image or no canvas it draws nothing and throws `MissingImage` or `MissingCanvas`, and with both it begins with the prelude and fails only on a stack overflow |
| Renderer.SetFont | meme.js:124-129 | the font becomes the merge of the old font and the patch, and nothing but the canvas size changes otherwise; the redraw that follows does nothing before initialisation; once initialised, with no image or no canvas it draws nothing and throws `MissingImage` or `MissingCanvas`, and with both it begins with the prelude in the merged style and fails only on a stack overflow |
| Renderer.Construct | meme.js:51-73 | construction succeeds exactly when the canvas option is a canvas and the image option is an image or source; otherwise it throws the first setter error; on success nothing was drawn, and the state holds every given option, the defaults elsewhere, and `inited` set |
| RendererFacts.CaptionPlaced | meme.js:135-136 | a completed caption placement renders lines that rejoin into the caption and step from its edge |
| RendererFacts.RedrawDraws | meme.js:131-204 | a completed redraw is the prelude, then the lines `Place` lays out for the top caption from y = 0, then those for the bottom caption from y = image height; both rejoin into their captions and step by height/8 for the automatic size -1 and by the configured size otherwise |
| RendererFacts.SetTopTextDraws | meme.js:114-136 | after a completed `setTopText`, the canvas shows the prelude, the new top caption laid out by `Place` from y = 0, and the unchanged bottom caption |
| RendererFacts.SetBottomTextDraws | meme.js:119-136 | after a completed `setBottomText`, the canvas shows the prelude, the unchanged top caption, and the new bottom caption laid out by `Place` from the image height |
| RendererFacts.SetFontDraws | meme.js:124-136 | after a completed `setFont`, both captions are laid out again with the merged font's line step and drawn after the prelude in the merged style |
| RendererFacts.ImageDrawnOnLoad | meme.js:98-195 | giving an image draws nothing; its load event then resizes the canvas to the loaded image and draws the prelude |
| RendererFacts.RedrawCompletes | meme.js:131-186 | a redraw completes when the stack is deeper than either caption's word count and every top word fits |
| RendererFacts.RedrawOverwideTopWord | meme.js:131-172 | a one-word top caption wider than the canvas, with the empty string fitting, makes every redraw overflow the stack right after the prelude |

## Left out

- Element lookup: `getElementById`, jQuery unwrapping, `isString` and the `instanceof HTMLCanvasElement` / `Image` tests (meme.js:77-83, 99-106, 226-228) become the tagged arguments `CanvasArg` and `ImageArg`.
- Text measurement and pixel output: `measureText` is the `measure` parameter. `fillText`, `strokeText` and `drawImage` are recorded as operations; their pixels are not modelled.
- `getImageData` / `toDataURL` (meme.js:222-224) is export I/O.
- The number-to-string formatting of the CSS font string (meme.js:215). The `Style` operation records the numeric pixel size, boldness and family.
- The `textBaseline` assignment (meme.js:145) and the `topOrBottom || 'top'` default (meme.js:144). Every call names its position.
- The `return false` of `redraw` before initialisation (meme.js:132). Only the absence of effects is modelled.
- Asynchronous loading: listener registration, loads of images that are no longer current, and load failures. `Renderer.ImageLoaded` models a completed load of the stored image only.
- Dynamic typing of font values: a configuration must give each of the eight keys a value of that key's kind. Values such as `null` are not modelled.
- Renderer.Redraw: on a stack overflow, the lines drawn before the overflow inside the failing caption are not recorded. Neither is the text style left on the context.
- `setCanvasDimensions` (meme.js:93-96) is not a separate operation. It appears as the `Resize` operation and the canvas update inside `Redraw`.
- Integer canvas sizes and floating-point text widths are exact `nat` and `real` values. No rounding is modelled.
