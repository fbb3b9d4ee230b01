/** Font configuration of the renderer: the eight-key settings record, the
    field-by-field merge of `setFont`, and the effective font size. */
module Fonts {

  /** The `font` record of meme.js; `family` is the key `font`. */
  datatype Font = Font(
    fillStyle: string,
    strokeStyle: string,
    strokeWidth: real,
    bold: bool,
    family: string,
    fontSize: real,
    textAlign: string,
    spacingMultiplier: real)

  /** The settings a new renderer starts with; a size of -1 means automatic. */
  const DefaultFont := Font("white", "black", 2.0, false, "Impact", -1.0, "center", 1.2)

  /** The eight keys of the font record. */
  datatype FontKey =
    FillStyle | StrokeStyle | StrokeWidth | Bold | Family | FontSize | TextAlign | SpacingMultiplier

  /** The property name under which each key appears in a configuration object. */
  function KeyName(k: FontKey): string {
    match k
    case FillStyle => "fillStyle"
    case StrokeStyle => "strokeStyle"
    case StrokeWidth => "strokeWidth"
    case Bold => "bold"
    case Family => "font"
    case FontSize => "fontSize"
    case TextAlign => "textAlign"
    case SpacingMultiplier => "spacingMultiplier"
  }

  /** The keys in the order the source's `for (key in _meme.font)` visits them. */
  const KeyOrder: seq<FontKey> :=
    [FillStyle, StrokeStyle, StrokeWidth, Bold, Family, FontSize, TextAlign, SpacingMultiplier]

  /** A value passed for one key of a partial configuration. */
  datatype FontValue = Text(s: string) | Number(n: real) | Flag(b: bool)

  /** A partial configuration: property names absent from the map are
      `undefined`. Names other than the eight font keys may be present. */
  type FontPatch = map<string, FontValue>

  /** The kind of value each font key holds. */
  predicate KindOk(k: FontKey, v: FontValue) {
    match k
    case Bold => v.Flag?
    case StrokeWidth | FontSize | SpacingMultiplier => v.Number?
    case _ => v.Text?
  }

  /** Every font key the patch defines carries a value of that key's kind. */
  predicate WellTyped(p: FontPatch) {
    forall k :: KeyName(k) in p ==> KindOk(k, p[KeyName(k)])
  }

  /** The value stored under key `k`, as `_meme.font[key]` reads it. */
  function Field(f: Font, k: FontKey): (v: FontValue)
    ensures KindOk(k, v)
  {
    match k
    case FillStyle => Text(f.fillStyle)
    case StrokeStyle => Text(f.strokeStyle)
    case StrokeWidth => Number(f.strokeWidth)
    case Bold => Flag(f.bold)
    case Family => Text(f.family)
    case FontSize => Number(f.fontSize)
    case TextAlign => Text(f.textAlign)
    case SpacingMultiplier => Number(f.spacingMultiplier)
  }

  /** Two fonts that agree on every key are the same font. */
  lemma FieldsDetermineFont(a: Font, b: Font)
    requires forall k :: Field(a, k) == Field(b, k)
    ensures a == b
  {
    assert Field(a, FillStyle) == Field(b, FillStyle);
    assert Field(a, StrokeStyle) == Field(b, StrokeStyle);
    assert Field(a, StrokeWidth) == Field(b, StrokeWidth);
    assert Field(a, Bold) == Field(b, Bold);
    assert Field(a, Family) == Field(b, Family);
    assert Field(a, FontSize) == Field(b, FontSize);
    assert Field(a, TextAlign) == Field(b, TextAlign);
    assert Field(a, SpacingMultiplier) == Field(b, SpacingMultiplier);
  }

  /** `_meme.font[key] = v`: the font with one key replaced, the others kept. */
  function WithField(f: Font, k: FontKey, v: FontValue): (r: Font)
    requires KindOk(k, v)
    ensures Field(r, k) == v
    ensures forall k' :: k' != k ==> Field(r, k') == Field(f, k')
  {
    match k
    case FillStyle => f.(fillStyle := v.s)
    case StrokeStyle => f.(strokeStyle := v.s)
    case StrokeWidth => f.(strokeWidth := v.n)
    case Bold => f.(bold := v.b)
    case Family => f.(family := v.s)
    case FontSize => f.(fontSize := v.n)
    case TextAlign => f.(textAlign := v.s)
    case SpacingMultiplier => f.(spacingMultiplier := v.n)
  }

  /** The value `setFont` leaves under a key: the patch's when it defines the
      key, the old one otherwise. */
  function Merged(f: Font, p: FontPatch, k: FontKey): FontValue {
    if KeyName(k) in p then p[KeyName(k)] else Field(f, k)
  }

  /** The merge of `setFont(p)`, one record at once. */
  function Merge(f: Font, p: FontPatch): (r: Font)
    requires WellTyped(p)
    ensures forall k :: Field(r, k) == Merged(f, p, k)
  {
    Font(
      if KeyName(FillStyle) in p then p[KeyName(FillStyle)].s else f.fillStyle,
      if KeyName(StrokeStyle) in p then p[KeyName(StrokeStyle)].s else f.strokeStyle,
      if KeyName(StrokeWidth) in p then p[KeyName(StrokeWidth)].n else f.strokeWidth,
      if KeyName(Bold) in p then p[KeyName(Bold)].b else f.bold,
      if KeyName(Family) in p then p[KeyName(Family)].s else f.family,
      if KeyName(FontSize) in p then p[KeyName(FontSize)].n else f.fontSize,
      if KeyName(TextAlign) in p then p[KeyName(TextAlign)].s else f.textAlign,
      if KeyName(SpacingMultiplier) in p then p[KeyName(SpacingMultiplier)].n else f.spacingMultiplier)
  }

  /** `setFont` as the source writes it: a loop over the keys of the current
      font, each taking the patch's value when it is defined. */
  method ApplyPatch(f: Font, p: FontPatch) returns (r: Font)
    requires WellTyped(p)
    ensures forall k :: Field(r, k) == Merged(f, p, k)
    ensures r == Merge(f, p)
  {
    r := f;
    var i := 0;
    while i < |KeyOrder|
      invariant 0 <= i <= |KeyOrder|
      invariant forall k :: KeyIndex(k) < i ==> Field(r, k) == Merged(f, p, k)
      invariant forall k :: KeyIndex(k) >= i ==> Field(r, k) == Field(f, k)
    {
      var k := KeyOrder[i];
      assert KeyIndex(k) == i;
      r := WithField(r, k, if KeyName(k) in p then p[KeyName(k)] else Field(r, k));
      i := i + 1;
    }
    FieldsDetermineFont(r, Merge(f, p));
  }

  /** The position of a key in `KeyOrder`. */
  function KeyIndex(k: FontKey): (i: nat)
    ensures i < |KeyOrder| && KeyOrder[i] == k
  {
    match k
    case FillStyle => 0
    case StrokeStyle => 1
    case StrokeWidth => 2
    case Bold => 3
    case Family => 4
    case FontSize => 5
    case TextAlign => 6
    case SpacingMultiplier => 7
  }

  /** Applying the same partial configuration twice is applying it once. */
  lemma MergeIdempotent(f: Font, p: FontPatch)
    requires WellTyped(p)
    ensures Merge(Merge(f, p), p) == Merge(f, p)
  {
    FieldsDetermineFont(Merge(Merge(f, p), p), Merge(f, p));
  }

  /** Property names outside the eight font keys have no effect. */
  lemma MergeIgnoresUnknownKeys(f: Font, p: FontPatch)
    requires WellTyped(p)
    ensures var known := map name | name in p && exists k :: KeyName(k) == name :: p[name];
            WellTyped(known) && Merge(f, p) == Merge(f, known)
  {
    var known := map name | name in p && exists k :: KeyName(k) == name :: p[name];
    forall k ensures Merged(f, p, k) == Merged(f, known, k) {
      if KeyName(k) in p {
        assert KeyName(k) in known;
      }
    }
    FieldsDetermineFont(Merge(f, p), Merge(f, known));
  }

  /** A configuration that defines only the fill colour changes only the fill colour. */
  lemma MergeFillOnly(f: Font, colour: string)
    ensures Merge(f, map["fillStyle" := Text(colour)]) == f.(fillStyle := colour)
  {
  }

  /** `getFontSize()`: the configured size, or an eighth of the canvas height
      when the size is the automatic value -1. */
  function EffectiveSize(f: Font, canvasHeight: nat): (r: real)
    ensures f.fontSize != -1.0 ==> r == f.fontSize
    ensures f.fontSize == -1.0 ==> 8.0 * r == canvasHeight as real
    ensures f.fontSize == -1.0 ==> 0.0 <= r <= canvasHeight as real
  {
    if f.fontSize == -1.0 then canvasHeight as real / 8.0 else f.fontSize
  }
}
