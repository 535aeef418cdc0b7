/**
 * `chunk.split(/\s*\n\s*\/)`: a chunk cut at every run of whitespace that
 * holds at least one newline; the runs themselves are dropped.
 */
module Lines {

  /** JavaScript's `\s`: the ASCII blanks, NBSP, BOM and Unicode space separators. */
  predicate IsSpace(c: char)
  {
    || c == ' ' || c == '\t' || c == '\n' || c == '\U{0B}' || c == '\U{0C}' || c == '\r'
    || c == '\U{A0}' || c == '\U{1680}' || ('\U{2000}' <= c <= '\U{200A}')
    || c == '\U{2028}' || c == '\U{2029}' || c == '\U{202F}' || c == '\U{205F}'
    || c == '\U{3000}' || c == '\U{FEFF}'
  }

  /** Length of the whitespace run at the start of s. */
  function SpaceRun(s: string): (n: nat)
    ensures n <= |s|
    ensures forall i | 0 <= i < n :: IsSpace(s[i])
    ensures n < |s| ==> !IsSpace(s[n])
  {
    if s == [] || !IsSpace(s[0]) then 0 else 1 + SpaceRun(s[1..])
  }

  /** Glue `head` onto the front of the first piece. */
  function Attach(head: string, pieces: seq<string>): (r: seq<string>)
    requires |pieces| >= 1
    ensures |r| == |pieces| && r[0] == head + pieces[0] && r[1..] == pieces[1..]
  {
    [head + pieces[0]] + pieces[1..]
  }

  /**
   * The pieces `split` returns.  The regular expression matches, leftmost
   * first, a whole whitespace run that contains a newline, so each such run
   * separates two pieces and every other character stays in its piece.
   */
  function SplitLines(s: string): (pieces: seq<string>)
    ensures |pieces| >= 1
    ensures '\n' !in s ==> pieces == [s]
    ensures '\n' in s ==> |pieces| >= 2
    decreases |s|
  {
    if s == [] then [""]
    else if !IsSpace(s[0]) then
      assert s[..1] + s[1..] == s;
      Attach(s[..1], SplitLines(s[1..]))
    else
      var n := SpaceRun(s);
      assert s[..n] + s[n..] == s;
      if '\n' in s[..n] then [""] + SplitLines(s[n..])
      else Attach(s[..n], SplitLines(s[n..]))
  }

  function Concat(pieces: seq<string>): string
  {
    if pieces == [] then "" else pieces[0] + Concat(pieces[1..])
  }

  /** `lines.join('\n')` */
  function JoinLines(lines: seq<string>): string
    requires |lines| >= 1
  {
    if |lines| == 1 then lines[0] else lines[0] + "\n" + JoinLines(lines[1..])
  }

  /** A line that survives a split/join round trip: no newline, no blank ends. */
  predicate Trimmed(line: string)
  {
    line != [] && '\n' !in line && !IsSpace(line[0]) && !IsSpace(line[|line| - 1])
  }

  /** No piece of a split holds a newline. */
  lemma {:induction false} PiecesHaveNoNewline(s: string)
    ensures forall i | 0 <= i < |SplitLines(s)| :: '\n' !in SplitLines(s)[i]
    decreases |s|
  {
    if s == [] {
    } else if !IsSpace(s[0]) {
      PiecesHaveNoNewline(s[1..]);
    } else {
      var n := SpaceRun(s);
      PiecesHaveNoNewline(s[n..]);
    }
  }

  lemma {:induction false} ConcatAttach(head: string, pieces: seq<string>)
    requires |pieces| >= 1
    ensures Concat(Attach(head, pieces)) == head + Concat(pieces)
  {
    var r := Attach(head, pieces);
    assert r[1..] == pieces[1..];
    assert Concat(r) == r[0] + Concat(r[1..]);
    assert Concat(pieces) == pieces[0] + Concat(pieces[1..]);
  }

  /** Splitting never adds text, and a chunk with a newline loses at least that newline. */
  lemma {:induction false} SplitDropsText(s: string)
    ensures |Concat(SplitLines(s))| <= |s|
    ensures '\n' in s ==> |Concat(SplitLines(s))| < |s|
    decreases |s|
  {
    if s != [] {
      var n := HeadLength(s);
      SplitStep(s);
      SplitDropsText(s[n..]);
      DropsStep(s, n, SplitLines(s), SplitLines(s[n..]));
    }
  }

  /** A newline that is not in the head of a text is in the rest. */
  lemma NewlineAfterHead(s: string, n: nat)
    requires n <= |s| && '\n' !in s[..n]
    ensures '\n' in s ==> '\n' in s[n..]
  {
    assert s == s[..n] + s[n..];
  }

  /** SplitDropsText for a chunk, from the same fact about what follows its first step. */
  lemma DropsStep(s: string, n: nat, pieces: seq<string>, tail: seq<string>)
    requires 0 < n <= |s| && |tail| >= 1
    requires pieces == if '\n' in s[..n] then [""] + tail else Attach(s[..n], tail)
    requires |Concat(tail)| <= |s[n..]|
    requires '\n' in s[n..] ==> |Concat(tail)| < |s[n..]|
    ensures |Concat(pieces)| <= |s|
    ensures '\n' in s ==> |Concat(pieces)| < |s|
  {
    if '\n' in s[..n] {
      assert pieces[0] == "" && pieces[1..] == tail;
      assert Concat(pieces) == pieces[0] + Concat(pieces[1..]);
    } else {
      ConcatAttach(s[..n], tail);
      NewlineAfterHead(s, n);
    }
  }

  lemma {:induction false} AttachAttach(a: string, b: string, pieces: seq<string>)
    requires |pieces| >= 1
    ensures Attach(a, Attach(b, pieces)) == Attach(a + b, pieces)
  {
    assert a + (b + pieces[0]) == (a + b) + pieces[0];
  }

  lemma {:induction false} SpaceRunStaysInside(w: string, t: string)
    requires w != [] && !IsSpace(w[|w| - 1])
    ensures SpaceRun(w + t) == SpaceRun(w) < |w|
    decreases |w|
  {
    if IsSpace(w[0]) {
      assert (w + t)[1..] == w[1..] + t;
      SpaceRunStaysInside(w[1..], t);
    }
  }

  /** A word without a newline or a trailing blank simply joins the first piece. */
  lemma {:induction false} SplitAfterWord(w: string, t: string)
    requires '\n' !in w
    requires w == [] || !IsSpace(w[|w| - 1])
    ensures SplitLines(w + t) == Attach(w, SplitLines(t))
    decreases |w|
  {
    if w == [] {
      SplitAfterNothing(t);
    } else {
      var n := HeadLength(w);
      SplitWordHead(w, t);
      WordTail(w, n);
      SplitAfterWord(w[n..], t);
      AttachChain(w[..n], w[n..], SplitLines(w + t), SplitLines(w[n..] + t), SplitLines(t));
    }
  }

  lemma SplitAfterNothing(t: string)
    ensures SplitLines([] + t) == Attach([], SplitLines(t))
  {
    assert [] + t == t;
    var ps := SplitLines(t);
    assert [] + ps[0] == ps[0];
    assert [ps[0]] + ps[1..] == ps;
  }

  /** What follows the head of a word is again a word without a newline or a trailing blank. */
  lemma WordTail(w: string, n: nat)
    requires '\n' !in w && w != [] && !IsSpace(w[|w| - 1]) && n <= |w|
    ensures '\n' !in w[n..] && (w[n..] == [] || !IsSpace(w[n..][|w[n..]| - 1]))
    ensures w[..n] + w[n..] == w
  {
  }

  /** The length of the first step SplitLines takes over a word: a whole blank run, or one character. */
  function HeadLength(w: string): (n: nat)
    requires w != []
    ensures 0 < n <= |w|
  {
    if IsSpace(w[0]) then SpaceRun(w) else 1
  }

  /** The head of a word without a newline or a trailing blank joins the first piece of the rest. */
  lemma SplitWordHead(w: string, t: string)
    requires '\n' !in w && w != [] && !IsSpace(w[|w| - 1])
    ensures SplitLines(w + t) == Attach(w[..HeadLength(w)], SplitLines(w[HeadLength(w)..] + t))
  {
    var n := HeadLength(w);
    if IsSpace(w[0]) {
      SpaceRunStaysInside(w, t);
    }
    var s := w + t;
    assert s[0] == w[0] && s[..n] == w[..n] && s[n..] == w[n..] + t;
    assert HeadLength(s) == n;
    SplitStep(s);
  }

  /** Attaching `a` to the result of attaching `b` attaches `a + b`. */
  lemma AttachChain(a: string, b: string, whole: seq<string>, mid: seq<string>, rest: seq<string>)
    requires |rest| >= 1
    requires mid == Attach(b, rest) && whole == Attach(a, mid)
    ensures whole == Attach(a + b, rest)
  {
    AttachAttach(a, b, rest);
  }

  /** The first step of SplitLines: a blank run with a newline separates, anything else joins the first piece. */
  lemma SplitStep(s: string)
    requires s != []
    ensures '\n' in s[..HeadLength(s)] ==> SplitLines(s) == [""] + SplitLines(s[HeadLength(s)..])
    ensures '\n' !in s[..HeadLength(s)] ==> SplitLines(s) == Attach(s[..HeadLength(s)], SplitLines(s[HeadLength(s)..]))
  {
  }

  /** A single newline before a word is one separator. */
  lemma SplitAfterNewline(t: string)
    requires t == [] || !IsSpace(t[0])
    ensures SplitLines("\n" + t) == [""] + SplitLines(t)
  {
    var s := "\n" + t;
    assert SpaceRun(s) == 1 by {
      assert s[1..] == t;
    }
    assert s[..1] == "\n";
    assert s[1..] == t;
  }

  /** Splitting undoes `join('\n')` on trimmed, non-empty lines. */
  lemma {:induction false} SplitJoinRoundTrip(lines: seq<string>)
    requires |lines| >= 1
    requires forall i | 0 <= i < |lines| :: Trimmed(lines[i])
    ensures SplitLines(JoinLines(lines)) == lines
    decreases |lines|
  {
    if |lines| == 1 {
      SplitAfterWord(lines[0], "");
      assert lines[0] + "" == lines[0];
    } else {
      var rest := JoinLines(lines[1..]);
      SplitJoinRoundTrip(lines[1..]);
      assert rest[0] == lines[1][0] by { JoinStartsWithFirst(lines[1..]); }
      SplitAfterNewline(rest);
      assert lines[0] + "\n" + rest == lines[0] + ("\n" + rest);
      SplitAfterWord(lines[0], "\n" + rest);
      assert ([""] + lines[1..])[1..] == lines[1..];
      assert lines[0] + ([""] + lines[1..])[0] == lines[0];
      assert lines == [lines[0]] + lines[1..];
    }
  }

  lemma {:induction false} JoinStartsWithFirst(lines: seq<string>)
    requires |lines| >= 1 && lines[0] != []
    ensures |JoinLines(lines)| >= 1 && JoinLines(lines)[0] == lines[0][0]
  {
  }
}
