/** Splitting a caption on single spaces and joining it back, as JavaScript's
    `String.prototype.split(' ')` and `Array.prototype.join(' ')` do. */
module Words {

  /** True when `w` contains no space, as every piece produced by `Split` does. */
  predicate NoSpace(w: string) {
    forall i :: 0 <= i < |w| ==> w[i] != ' '
  }

  predicate AllNoSpace(ws: seq<string>) {
    forall i :: 0 <= i < |ws| ==> NoSpace(ws[i])
  }

  /** `s.split(' ')`: the pieces between single spaces; the empty string gives
      one empty piece and two adjacent spaces give an empty piece between them. */
  function Split(s: string): (ws: seq<string>)
    ensures |ws| >= 1
    ensures AllNoSpace(ws)
    ensures |ws| <= |s| + 1
  {
    if |s| == 0 then [""]
    else
      var rest := Split(s[1..]);
      if s[0] == ' ' then [""] + rest
      else [[s[0]] + rest[0]] + rest[1..]
  }

  /** `ws.join(' ')`: the pieces separated by one space each; `[]` joins to `""`. */
  function Join(ws: seq<string>): (r: string)
    ensures |ws| == 0 ==> r == ""
    ensures |ws| >= 1 ==> ws[0] <= r
  {
    if |ws| == 0 then ""
    else if |ws| == 1 then ws[0]
    else ws[0] + " " + Join(ws[1..])
  }

  /** Joining two non-empty runs of pieces puts exactly one space between them. */
  lemma {:induction false} JoinAppend(a: seq<string>, b: seq<string>)
    requires |a| >= 1 && |b| >= 1
    ensures Join(a + b) == Join(a) + " " + Join(b)
    decreases |a|
  {
    if |a| == 1 {
      assert (a + b)[1..] == b;
    } else {
      assert (a + b)[1..] == a[1..] + b;
      JoinAppend(a[1..], b);
    }
  }

  /** Splitting and joining back reproduces the caption exactly. */
  lemma {:induction false} JoinSplit(s: string)
    ensures Join(Split(s)) == s
    decreases |s|
  {
    if |s| > 0 {
      var rest := Split(s[1..]);
      JoinSplit(s[1..]);
      if s[0] == ' ' {
        assert ([""] + rest)[1..] == rest;
      } else if |rest| > 1 {
        var ws := [[s[0]] + rest[0]] + rest[1..];
        assert ws[1..] == rest[1..];
        assert Join(rest) == rest[0] + " " + Join(rest[1..]);
      }
      assert s == [s[0]] + s[1..];
    }
  }

  /** A word without spaces splits to itself. */
  lemma {:induction false} SplitWord(w: string)
    requires NoSpace(w)
    ensures Split(w) == [w]
    decreases |w|
  {
    if |w| > 0 {
      SplitWord(w[1..]);
      assert w == [w[0]] + w[1..];
    }
  }

  /** Splitting `w + " " + t` yields `w` followed by the pieces of `t`. */
  lemma {:induction false} SplitAfterWord(w: string, t: string)
    requires NoSpace(w)
    ensures Split(w + " " + t) == [w] + Split(t)
    decreases |w|
  {
    var s := w + " " + t;
    if |w| == 0 {
      assert s[1..] == t;
    } else {
      assert s[1..] == w[1..] + " " + t;
      SplitAfterWord(w[1..], t);
      assert w == [w[0]] + w[1..];
    }
  }

  /** Joining space-free pieces and splitting again gives the pieces back. */
  lemma {:induction false} SplitJoin(ws: seq<string>)
    requires |ws| >= 1 && AllNoSpace(ws)
    ensures Split(Join(ws)) == ws
    decreases |ws|
  {
    if |ws| == 1 {
      SplitWord(ws[0]);
    } else {
      assert NoSpace(ws[0]);
      SplitAfterWord(ws[0], Join(ws[1..]));
      SplitJoin(ws[1..]);
      assert ws == [ws[0]] + ws[1..];
    }
  }
}
