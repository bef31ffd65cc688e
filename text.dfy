/** Text split into lines and joined back, as `String.prototype.split('\n')` and
    `Array.prototype.join('\n')` do it; the replay command and the hook runner both use it. */
module Text {
  /** `s.split('\n')`: the pieces between line feeds, the empty ones included. */
  function SplitLines(s: string): (ls: seq<string>)
    ensures |ls| >= 1
    ensures forall i :: 0 <= i < |ls| ==> '\n' !in ls[i]
  {
    if |s| == 0 then [""]
    else
      var rest := SplitLines(s[1..]);
      if s[0] == '\n' then [""] + rest else [[s[0]] + rest[0]] + rest[1..]
  }

  /** `ls.join('\n')`. */
  function JoinLines(ls: seq<string>): string {
    if |ls| == 0 then "" else if |ls| == 1 then ls[0] else ls[0] + "\n" + JoinLines(ls[1..])
  }

  /** Splitting loses nothing: joining the pieces gives the text back. */
  lemma {:induction false} JoinSplit(s: string)
    ensures JoinLines(SplitLines(s)) == s
  {
    if |s| > 0 {
      var rest := SplitLines(s[1..]);
      JoinSplit(s[1..]);
      if s[0] == '\n' {
        var ls := [""] + rest;
        assert ls[1..] == rest;
        assert JoinLines(ls) == "" + "\n" + JoinLines(rest);
      } else {
        JoinFirst([s[0]], rest[0], rest[1..]);
        assert [rest[0]] + rest[1..] == rest;
      }
      assert [s[0]] + s[1..] == s;
    }
  }

  lemma JoinFirst(x: string, first: string, rest: seq<string>)
    ensures JoinLines([x + first] + rest) == x + JoinLines([first] + rest)
  {
    var ms := [x + first] + rest;
    var ls := [first] + rest;
    if |rest| > 0 {
      assert ms[1..] == rest && ls[1..] == rest;
      var tail := JoinLines(rest);
      assert (x + first) + "\n" + tail == x + (first + "\n" + tail);
    }
  }

  /** A line without a line feed, then a line feed, splits off as one piece. */
  lemma {:induction false} SplitAfterLine(line: string, rest: string)
    requires '\n' !in line
    ensures SplitLines(line + "\n" + rest) == [line] + SplitLines(rest)
  {
    if |line| > 0 {
      var s := line + "\n" + rest;
      assert s[1..] == line[1..] + "\n" + rest;
      SplitAfterLine(line[1..], rest);
      assert [line[0]] + line[1..] == line;
    } else {
      assert line + "\n" + rest == "\n" + rest;
      assert ("\n" + rest)[1..] == rest;
    }
  }

  /** A line feed at the end of the text adds one empty piece at the end. */
  lemma {:induction false} SplitNewlineAtEnd(t: string)
    ensures SplitLines(t + "\n") == SplitLines(t) + [""]
  {
    if |t| > 0 {
      assert (t + "\n")[1..] == t[1..] + "\n";
      SplitNewlineAtEnd(t[1..]);
    } else {
      assert t + "\n" == "\n";
    }
  }

  /** Any other character at the end of the text extends the last piece. */
  lemma {:induction false} SplitCharAtEnd(t: string, c: char)
    requires c != '\n'
    ensures var ls := SplitLines(t);
      SplitLines(t + [c]) == ls[..|ls| - 1] + [ls[|ls| - 1] + [c]]
  {
    if |t| > 0 {
      assert (t + [c])[1..] == t[1..] + [c];
      SplitCharAtEnd(t[1..], c);
      var rest := SplitLines(t[1..]);
      if t[0] != '\n' && |rest| == 1 {
        assert [t[0]] + (rest[0] + [c]) == [t[0]] + rest[0] + [c];
      }
    } else {
      assert t + [c] == [c];
      assert [c][1..] == "";
      assert [c] + "" == [c];
    }
  }

  /** A line reader ends a line at `\n`, at `\r\n` and at a lone `\r`: each of these becomes
      one `\n`. */
  function UnifyBreaks(s: string): (r: string)
    ensures '\r' !in r
    ensures '\r' !in s ==> r == s
  {
    if |s| == 0 then ""
    else if s[0] == '\r' && |s| > 1 && s[1] == '\n' then "\n" + UnifyBreaks(s[2..])
    else if s[0] == '\r' then "\n" + UnifyBreaks(s[1..])
    else [s[0]] + UnifyBreaks(s[1..])
  }

  /** The lines a line reader yields: the pieces between line ends, without the empty one a
      final line end leaves. */
  function ReadLines(s: string): (ls: seq<string>)
    ensures forall i :: 0 <= i < |ls| ==> '\n' !in ls[i] && '\r' !in ls[i]
  {
    var pieces := SplitLines(UnifyBreaks(s));
    NoCharInPieces(UnifyBreaks(s), '\r');
    if pieces[|pieces| - 1] == "" then pieces[..|pieces| - 1] else pieces
  }

  /** A character the text lacks is in none of its pieces. */
  lemma {:induction false} NoCharInPieces(s: string, c: char)
    requires c !in s
    ensures forall i :: 0 <= i < |SplitLines(s)| ==> c !in SplitLines(s)[i]
  {
    if |s| > 0 {
      assert c !in s[1..] by {
        assert forall j :: 0 <= j < |s[1..]| ==> s[1..][j] == s[j + 1];
      }
      NoCharInPieces(s[1..], c);
    }
  }

  /** Joining pieces that lack a character other than the line feed gives a text that lacks it. */
  lemma {:induction false} NoCharInJoin(ls: seq<string>, c: char)
    requires c != '\n'
    requires forall i :: 0 <= i < |ls| ==> c !in ls[i]
    ensures c !in JoinLines(ls)
  {
    if |ls| > 1 {
      NoCharInJoin(ls[1..], c);
      assert c !in ls[0];
    }
  }

  /** Reading lines and joining them drops one final line feed ... */
  lemma ReadDropsFinalNewline(t: string)
    requires '\r' !in t
    ensures JoinLines(ReadLines(t + "\n")) == t
  {
    assert '\r' !in t + "\n";
    SplitNewlineAtEnd(t);
    assert ReadLines(t + "\n") == SplitLines(t);
    JoinSplit(t);
  }

  /** ... and keeps a text that does not end in one. */
  lemma ReadKeepsLastLine(t: string, c: char)
    requires c != '\n' && c != '\r' && '\r' !in t
    ensures JoinLines(ReadLines(t + [c])) == t + [c]
  {
    assert '\r' !in t + [c];
    SplitCharAtEnd(t, c);
    JoinSplit(t + [c]);
  }

  /** A carriage return before a line feed ends one line, as the line feed alone does ... */
  lemma CarriageReturnLineFeed(s: string)
    ensures ReadLines("\r\n" + s) == ReadLines("\n" + s)
  {
    UnifyCrLf(s);
    UnifyPlain('\n', s);
  }

  /** ... and a lone carriage return ends a line as a line feed does. */
  lemma LoneCarriageReturn(s: string)
    requires |s| == 0 || s[0] != '\n'
    ensures ReadLines("\r" + s) == ReadLines("\n" + s)
  {
    UnifyCr(s);
    UnifyPlain('\n', s);
  }

  lemma UnifyPlain(c: char, s: string)
    requires c != '\r'
    ensures UnifyBreaks([c] + s) == [c] + UnifyBreaks(s)
  {
    assert ([c] + s)[1..] == s;
  }

  lemma UnifyCr(s: string)
    requires |s| == 0 || s[0] != '\n'
    ensures UnifyBreaks("\r" + s) == "\n" + UnifyBreaks(s)
  {
    assert ("\r" + s)[1..] == s;
  }

  lemma UnifyCrLf(s: string)
    ensures UnifyBreaks("\r\n" + s) == "\n" + UnifyBreaks(s)
  {
    assert ("\r\n" + s)[2..] == s;
  }
}
