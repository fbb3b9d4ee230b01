/** Properties of caption placement: no words are lost or reordered, the
    bottom caption always terminates, the top caption terminates when every
    word fits and loops forever when only the empty prefix fits. */
module LayoutFacts {
  import opened Base
  import opened Words
  import opened Layout

  /** The texts of the drawn lines, in drawing order. */
  function Texts(lines: seq<Line>): (ts: seq<string>)
    ensures |ts| == |lines|
    ensures forall k :: 0 <= k < |lines| ==> ts[k] == lines[k].text
  {
    if |lines| == 0 then [] else [lines[0].text] + Texts(lines[1..])
  }

  function Reverse<T>(s: seq<T>): (r: seq<T>)
    ensures |r| == |s|
  {
    if |s| == 0 then [] else Reverse(s[1..]) + [s[0]]
  }

  /** The lines in reading order: the top caption is drawn downwards from the
      top edge, the bottom caption upwards from the bottom edge. */
  function ReadingOrder(pos: Position, ts: seq<string>): seq<string> {
    if pos == Top then ts else Reverse(ts)
  }

  /** No drawn line overflows the canvas. */
  predicate LinesFit(pen: Pen, lines: seq<Line>) {
    forall k :: 0 <= k < |lines| ==> !Overflows(pen, lines[k].text)
  }

  /** Every word of the caption, on its own, passes the line test. */
  predicate WordsFit(pen: Pen, words: seq<string>) {
    forall k :: 0 <= k < |words| ==> Fits(pen, words[k])
  }

  /** The words of a space-free run are that run. */
  lemma SplitJoinSlice(words: seq<string>, lo: nat, hi: nat)
    requires AllNoSpace(words) && lo < hi <= |words|
    ensures Split(Join(words[lo..hi])) == words[lo..hi]
  {
    assert AllNoSpace(words[lo..hi]) by {
      forall k | 0 <= k < hi - lo ensures NoSpace(words[lo..hi][k]) {
        assert words[lo..hi][k] == words[lo + k];
      }
    }
    SplitJoin(words[lo..hi]);
  }

  /** The leading `i` words of a caption, joined, split back into those `i` words. */
  lemma LeadWords(text: string, i: nat)
    requires 1 <= i <= |Split(text)|
    ensures Split(Join(Split(text)[..i])) == Split(text)[..i]
  {
    SplitJoinSlice(Split(text), 0, i);
    assert Split(text)[0..i] == Split(text)[..i];
  }

  /** The words from index `i` on, joined, split back into those words, and
      each of them fits when every word of the caption fits. */
  lemma RestWords(pen: Pen, text: string, i: nat)
    requires i < |Split(text)|
    ensures Split(Join(Split(text)[i..])) == Split(text)[i..]
    ensures WordsFit(pen, Split(text)) ==> WordsFit(pen, Split(text)[i..])
  {
    var words := Split(text);
    SplitJoinSlice(words, i, |words|);
    assert words[i..|words|] == words[i..];
  }

  /** When every word fits, a one-word caption does not overflow and a longer
      one has a fitting one-word prefix. */
  lemma FirstWordFits(pen: Pen, text: string)
    requires WordsFit(pen, Split(text))
    ensures |Split(text)| == 1 ==> !Overflows(pen, text)
    ensures |Split(text)| >= 2 ==> PrefixFits(pen, Split(text), 1)
  {
    var words := Split(text);
    JoinSplit(text);
    assert Join(words[..1]) == words[0];
    if |words| == 1 {
      assert text == words[0];
    }
  }

  /** Cutting the words at `i` and joining both halves with a space gives the caption back. */
  lemma RejoinCut(text: string, i: nat)
    requires 1 <= i < |Split(text)|
    ensures Join(Split(text)[..i]) + " " + Join(Split(text)[i..]) == text
  {
    var words := Split(text);
    JoinAppend(words[..i], words[i..]);
    assert words[..i] + words[i..] == words;
    JoinSplit(text);
  }

  /** The full word list never passes the bottom test on an overflowing
      caption, so the bottom cut always leaves at least one leading word. */
  lemma BottomCutProper(pen: Pen, text: string)
    requires Overflows(pen, text)
    ensures SuffixCut(pen, Split(text), 0).Some? ==> SuffixCut(pen, Split(text), 0).value >= 1
  {
    assert Split(text)[0..] == Split(text);
    JoinSplit(text);
  }

  /** When the only fitting prefix is the empty one, the top caption draws an
      empty line and recurses on the same text one step lower, until the call
      stack is exhausted, whatever its depth. */
  lemma {:induction false} TopDiverges(fuel: nat, pen: Pen, text: string, y: real)
    requires Overflows(pen, text)
    requires PrefixCut(pen, Split(text), |Split(text)|) == Some(0)
    ensures Place(fuel, pen, text, Top, y) == None
    decreases fuel
  {
    if fuel > 0 {
      var words := Split(text);
      assert words[0..] == words;
      JoinSplit(text);
      TopDiverges(fuel - 1, pen, text, y + pen.step);
    }
  }

  /** A single word wider than the canvas at the top never gets drawn: the
      empty prefix fits, so placement recurses without end. */
  lemma OverwideTopWordDiverges(fuel: nat, pen: Pen, word: string, y: real)
    requires NoSpace(word) && Overflows(pen, word) && Fits(pen, "")
    ensures Place(fuel, pen, word, Top, y) == None
  {
    SplitWord(word);
    assert Split(word)[..0] == [];
    TopDiverges(fuel, pen, word, y);
  }

  /** On a canvas where even the empty string does not fit, such as the
      zero-width canvas of an image still loading, the top search finds no
      prefix and the overwide word is drawn whole, as at the bottom. */
  lemma OverwideTopWordNoRoom(fuel: nat, pen: Pen, word: string, y: real)
    requires fuel > 0 && NoSpace(word) && Overflows(pen, word) && !Fits(pen, "")
    ensures Place(fuel, pen, word, Top, y) == Some([Line(word, y)])
  {
    SplitWord(word);
    assert Split(word)[..0] == [];
  }

  /** The same word at the bottom is drawn at once, overflowing: the bottom
      search never tries the empty suffix and falls through. */
  lemma OverwideBottomWordIsDrawn(fuel: nat, pen: Pen, word: string, y: real)
    requires fuel > 0 && NoSpace(word) && Overflows(pen, word)
    ensures Place(fuel, pen, word, Bottom, y) == Some([Line(word, y)])
  {
    SplitWord(word);
    assert Split(word)[0..] == [word];
  }

  /** A concrete caption for the asymmetry: a four-letter word on a canvas
      three units wide, each character one unit wide. */
  lemma OverwideWordExample(fuel: nat)
    ensures Place(fuel, Pen(3, 40, 5.0, s => |s| as real), "abcd", Top, 0.0) == None
    ensures fuel > 0 ==> Place(fuel, Pen(3, 40, 5.0, s => |s| as real), "abcd", Bottom, 40.0) == Some([Line("abcd", 40.0)])
  {
    var pen := Pen(3, 40, 5.0, s => |s| as real);
    assert NoSpace("abcd");
    OverwideTopWordDiverges(fuel, pen, "abcd", 0.0);
    if fuel > 0 {
      OverwideBottomWordIsDrawn(fuel, pen, "abcd", 40.0);
    }
  }

  /** On the top caption, a prefix cut at zero words would never finish. */
  lemma TopCutProper(fuel: nat, pen: Pen, text: string, y: real)
    requires Overflows(pen, text) && Place(fuel, pen, text, Top, y).Some?
    ensures PrefixCut(pen, Split(text), |Split(text)|) != Some(0)
  {
    if PrefixCut(pen, Split(text), |Split(text)|) == Some(0) {
      TopDiverges(fuel, pen, text, y);
      assert false;
    }
  }

  /** The texts of one line followed by more lines. */
  lemma TextsCons(line: Line, tail: seq<Line>)
    ensures Texts([line] + tail) == [line.text] + Texts(tail)
  {
    assert ([line] + tail)[1..] == tail;
  }

  /** A fitting line followed by fitting lines. */
  lemma LinesFitCons(pen: Pen, line: Line, tail: seq<Line>)
    requires !Overflows(pen, line.text) && LinesFit(pen, tail)
    ensures LinesFit(pen, [line] + tail)
  {
    var lines := [line] + tail;
    assert forall k :: 1 <= k < |lines| ==> lines[k] == tail[k - 1];
  }

  /** `line` drawn before the lines of `rest`, unless placing `rest` overflowed the stack. */
  function Cons(line: Line, rest: Option<seq<Line>>): Option<seq<Line>> {
    if rest.None? then None else Some([line] + rest.value)
  }

  /** One step of the top recursion cut at `i` words: the prefix is one line
      at `y`, the remaining words are placed one step lower. */
  lemma TopStep(fuel: nat, pen: Pen, text: string, y: real, i: nat)
    requires fuel > 0 && Overflows(pen, text)
    requires PrefixCut(pen, Split(text), |Split(text)|) == Some(i)
    ensures Place(fuel, pen, text, Top, y) ==
      Cons(Line(Join(Split(text)[..i]), y), Place(fuel - 1, pen, Join(Split(text)[i..]), Top, y + pen.step))
  {
    assert PrefixFits(pen, Split(text), i);
  }

  /** One step of the bottom recursion cut at `i` words: the suffix is one
      line at `y`, the leading words are placed one step higher. */
  lemma BottomStep(fuel: nat, pen: Pen, text: string, y: real, i: nat)
    requires fuel > 0 && Overflows(pen, text)
    requires SuffixCut(pen, Split(text), 0) == Some(i)
    ensures Place(fuel, pen, text, Bottom, y) ==
      Cons(Line(Join(Split(text)[i..]), y), Place(fuel - 1, pen, Join(Split(text)[..i]), Bottom, y - pen.step))
  {
    assert SuffixFits(pen, Split(text), i);
  }

  /** When no top candidate fits, the caption is drawn whole. */
  lemma TopFallsThrough(fuel: nat, pen: Pen, text: string, y: real)
    requires fuel > 0 && Overflows(pen, text)
    requires PrefixCut(pen, Split(text), |Split(text)|).None?
    ensures Place(fuel, pen, text, Top, y) == Some([Line(text, y)])
  {
  }

  /** When no bottom candidate fits, the caption is drawn whole. */
  lemma BottomFallsThrough(fuel: nat, pen: Pen, text: string, y: real)
    requires fuel > 0 && Overflows(pen, text)
    requires SuffixCut(pen, Split(text), 0).None?
    ensures Place(fuel, pen, text, Bottom, y) == Some([Line(text, y)])
  {
  }

  /** Word preservation: joining the drawn lines with single spaces, in
      drawing order for the top caption and in reverse drawing order for the
      bottom caption, reproduces the caption exactly. */
  lemma PreservesWords(fuel: nat, pen: Pen, text: string, pos: Position, y: real)
    requires Place(fuel, pen, text, pos, y).Some?
    ensures Join(ReadingOrder(pos, Texts(Place(fuel, pen, text, pos, y).value))) == text
  {
    if pos == Top {
      TopPreservesWords(fuel, pen, text, y);
    } else {
      BottomPreservesWords(fuel, pen, text, y);
    }
  }

  /** The top reading of a line followed by more lines. */
  lemma JoinCons(line: Line, tail: seq<Line>)
    requires |tail| >= 1
    ensures Join(Texts([line] + tail)) == line.text + " " + Join(Texts(tail))
  {
    TextsCons(line, tail);
    JoinAppend([line.text], Texts(tail));
  }

  /** The bottom reading of a line followed by more lines. */
  lemma JoinReverseCons(line: Line, tail: seq<Line>)
    requires |tail| >= 1
    ensures Join(Reverse(Texts([line] + tail))) == Join(Reverse(Texts(tail))) + " " + line.text
  {
    TextsCons(line, tail);
    assert ([line.text] + Texts(tail))[1..] == Texts(tail);
    JoinAppend(Reverse(Texts(tail)), [line.text]);
  }

  lemma {:induction false} TopPreservesWords(fuel: nat, pen: Pen, text: string, y: real)
    requires Place(fuel, pen, text, Top, y).Some?
    ensures Join(Texts(Place(fuel, pen, text, Top, y).value)) == text
    decreases fuel
  {
    var words := Split(text);
    if Overflows(pen, text) {
      TopCutProper(fuel, pen, text, y);
      var c := PrefixCut(pen, words, |words|);
      if c.Some? {
        var i := c.value;
        var head, rest := Join(words[..i]), Join(words[i..]);
        TopStep(fuel, pen, text, y, i);
        var tail := Place(fuel - 1, pen, rest, Top, y + pen.step).value;
        TopPreservesWords(fuel - 1, pen, rest, y + pen.step);
        JoinCons(Line(head, y), tail);
        RejoinCut(text, i);
      } else {
        TopFallsThrough(fuel, pen, text, y);
      }
    }
  }

  lemma {:induction false} BottomPreservesWords(fuel: nat, pen: Pen, text: string, y: real)
    requires Place(fuel, pen, text, Bottom, y).Some?
    ensures Join(Reverse(Texts(Place(fuel, pen, text, Bottom, y).value))) == text
    decreases fuel
  {
    var words := Split(text);
    if Overflows(pen, text) {
      BottomCutProper(pen, text);
      var c := SuffixCut(pen, words, 0);
      if c.Some? {
        var i := c.value;
        var head, lead := Join(words[i..]), Join(words[..i]);
        BottomStep(fuel, pen, text, y, i);
        var tail := Place(fuel - 1, pen, lead, Bottom, y - pen.step).value;
        BottomPreservesWords(fuel - 1, pen, lead, y - pen.step);
        JoinReverseCons(Line(head, y), tail);
        RejoinCut(text, i);
      } else {
        BottomFallsThrough(fuel, pen, text, y);
      }
    }
  }

  /** Bottom placement always terminates within one call per word, and draws
      at most one line per word. */
  lemma {:induction false} BottomTerminates(fuel: nat, pen: Pen, text: string, y: real)
    requires fuel > |Split(text)|
    ensures Place(fuel, pen, text, Bottom, y).Some?
    ensures |Place(fuel, pen, text, Bottom, y).value| <= |Split(text)|
    decreases fuel
  {
    var words := Split(text);
    if Overflows(pen, text) {
      BottomCutProper(pen, text);
      var c := SuffixCut(pen, words, 0);
      if c.Some? {
        var i := c.value;
        var lead := Join(words[..i]);
        LeadWords(text, i);
        BottomTerminates(fuel - 1, pen, lead, y - pen.step);
        BottomStep(fuel, pen, text, y, i);
      } else {
        BottomFallsThrough(fuel, pen, text, y);
      }
    }
  }

  /** When every word fits on its own, top placement terminates within one
      call per word, draws at most one line per word, and no drawn line
      overflows the canvas. */
  lemma {:induction false} TopTerminates(fuel: nat, pen: Pen, text: string, y: real)
    requires fuel > |Split(text)| && WordsFit(pen, Split(text))
    ensures Place(fuel, pen, text, Top, y).Some?
    ensures |Place(fuel, pen, text, Top, y).value| <= |Split(text)|
    ensures LinesFit(pen, Place(fuel, pen, text, Top, y).value)
    decreases fuel
  {
    var words := Split(text);
    var n := |words|;
    FirstWordFits(pen, text);
    if Overflows(pen, text) {
      var c := PrefixCut(pen, words, n);
      assert c.Some? && c.value >= 1;
      var i := c.value;
      var rest := words[i..];
      RestWords(pen, text, i);
      TopTerminates(fuel - 1, pen, Join(rest), y + pen.step);
      TopStep(fuel, pen, text, y, i);
      var head := Join(words[..i]);
      assert PrefixFits(pen, words, i);
      var tail := Place(fuel - 1, pen, Join(rest), Top, y + pen.step).value;
      LinesFitCons(pen, Line(head, y), tail);
    }
  }

  /** Top overflow: either no proper word prefix fits and the caption is
      drawn whole at `y`, or the first line is the longest proper prefix of at
      least one word that fits, and the remaining words are placed one step lower. */
  lemma TopOverflow(fuel: nat, pen: Pen, text: string, y: real)
    requires Overflows(pen, text) && Place(fuel, pen, text, Top, y).Some?
    ensures var lines := Place(fuel, pen, text, Top, y).value;
            var words := Split(text);
            || (lines == [Line(text, y)] && forall j :: 0 <= j < |words| ==> !PrefixFits(pen, words, j))
            || (exists i :: 1 <= i < |words| && lines[0] == Line(Join(words[..i]), y) && PrefixFits(pen, words, i)
                  && (forall j :: i < j < |words| ==> !PrefixFits(pen, words, j))
                  && Place(fuel - 1, pen, Join(words[i..]), Top, y + pen.step) == Some(lines[1..]))
  {
    TopCutProper(fuel, pen, text, y);
    var words := Split(text);
    var c := PrefixCut(pen, words, |words|);
    if c.Some? {
      TopStep(fuel, pen, text, y, c.value);
      var lines := Place(fuel, pen, text, Top, y).value;
      assert lines[1..] == Place(fuel - 1, pen, Join(words[c.value..]), Top, y + pen.step).value;
    } else {
      TopFallsThrough(fuel, pen, text, y);
    }
  }

  /** Bottom overflow: either no proper word suffix fits and the caption is
      drawn whole at `y`, or the first line is the longest proper suffix that
      fits, and the leading words are placed one step higher. */
  lemma BottomOverflow(fuel: nat, pen: Pen, text: string, y: real)
    requires Overflows(pen, text) && Place(fuel, pen, text, Bottom, y).Some?
    ensures var lines := Place(fuel, pen, text, Bottom, y).value;
            var words := Split(text);
            || (lines == [Line(text, y)] && forall j :: 1 <= j < |words| ==> !SuffixFits(pen, words, j))
            || (exists i :: 1 <= i < |words| && lines[0] == Line(Join(words[i..]), y) && SuffixFits(pen, words, i)
                  && (forall j :: 1 <= j < i ==> !SuffixFits(pen, words, j))
                  && Place(fuel - 1, pen, Join(words[..i]), Bottom, y - pen.step) == Some(lines[1..]))
  {
    BottomCutProper(pen, text);
    var words := Split(text);
    var c := SuffixCut(pen, words, 0);
    if c.Some? {
      BottomStep(fuel, pen, text, y, c.value);
      var lines := Place(fuel, pen, text, Bottom, y).value;
      assert lines[1..] == Place(fuel - 1, pen, Join(words[..c.value]), Bottom, y - pen.step).value;
    } else {
      BottomFallsThrough(fuel, pen, text, y);
    }
  }
}
