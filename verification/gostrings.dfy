/** The pieces of Go's `strings` and `unicode` packages that the blank-line
    filter of `Config.Render` relies on: `strings.IndexByte`, `strings.Lines`,
    `strings.TrimSpace` and `unicode.IsSpace`.

    Text is a sequence of Unicode code points (`string` is `seq<char>`), i.e.
    Go's UTF-8 byte strings after decoding. Since the byte '\n' only ever
    encodes U+000A in UTF-8, splitting on the byte and splitting on the code
    point agree.
 */
module GoStrings {

  /** `unicode.IsSpace`: the Latin-1 white space characters
      (tab, line feed, vertical tab, form feed, carriage return, space,
      U+0085 NEL, U+00A0 NBSP) and the other code points with the Unicode
      White_Space property. */
  predicate IsSpace(c: char) {
    || c in {'\t', '\n', '\U{000B}', '\U{000C}', '\r', ' ', '\U{0085}', '\U{00A0}'}
    || c == '\U{1680}'
    || ('\U{2000}' <= c <= '\U{200A}')
    || c in {'\U{2028}', '\U{2029}', '\U{202F}', '\U{205F}', '\U{3000}'}
  }

  /** Every code point of `s` is white space (vacuously true of ""). */
  predicate AllSpace(s: string) {
    forall i | 0 <= i < |s| :: IsSpace(s[i])
  }

  /** `strings.IndexByte`: the index of the first occurrence of `c`, or -1. */
  function IndexByte(s: string, c: char): (i: int)
    ensures -1 <= i < |s|
    ensures i == -1 <==> c !in s
    ensures 0 <= i ==> s[i] == c && c !in s[..i]
    decreases |s|
  {
    if |s| == 0 then -1
    else if s[0] == c then 0
    else
      var j := IndexByte(s[1..], c);
      if j == -1 then -1
      else
        assert s[..j + 1] == [s[0]] + s[1..][..j];
        j + 1
  }

  /** Leading white space removed (`strings.TrimLeftFunc(s, unicode.IsSpace)`). */
  function TrimLeft(s: string): (r: string)
    ensures |r| <= |s| && r == s[|s| - |r|..]
    ensures AllSpace(s[..|s| - |r|])
    ensures r == "" || !IsSpace(r[0])
    decreases |s|
  {
    if |s| > 0 && IsSpace(s[0]) then TrimLeft(s[1..]) else s
  }

  /** Trailing white space removed (`strings.TrimRightFunc(s, unicode.IsSpace)`). */
  function TrimRight(s: string): (r: string)
    ensures |r| <= |s| && r == s[..|r|]
    ensures AllSpace(s[|r|..])
    ensures r == "" || !IsSpace(r[|r| - 1])
    decreases |s|
  {
    if |s| > 0 && IsSpace(s[|s| - 1]) then
      var r := TrimRight(s[..|s| - 1]);
      assert s[..|s| - 1][..|r|] == s[..|r|];
      assert s[|r|..] == s[..|s| - 1][|r|..] + [s[|s| - 1]];
      r
    else s
  }

  /** `strings.TrimSpace`: leading and trailing white space removed. The
      result is empty exactly when the whole input is white space. */
  function TrimSpace(s: string): (r: string)
    ensures r == "" <==> AllSpace(s)
    ensures r != "" ==> !IsSpace(r[0]) && !IsSpace(r[|r| - 1])
    ensures exists i, j | 0 <= i <= j <= |s| :: r == s[i..j] && AllSpace(s[..i]) && AllSpace(s[j..])
  {
    var left := TrimLeft(s);
    var r := TrimRight(left);
    TrimBothEnds(s, |s| - |left|, left, r);
    r
  }

  /** Trimming the front of `s` down to `left`, then the back of `left`
      down to `r`, leaves the slice `s[i..i + |r|]` between white space. */
  lemma TrimBothEnds(s: string, i: nat, left: string, r: string)
    requires i <= |s| && left == s[i..] && AllSpace(s[..i])
    requires left == "" || !IsSpace(left[0])
    requires |r| <= |left| && r == left[..|r|] && AllSpace(left[|r|..])
    requires r == "" || !IsSpace(r[|r| - 1])
    ensures r == "" <==> AllSpace(s)
    ensures r != "" ==> !IsSpace(r[0]) && !IsSpace(r[|r| - 1])
    ensures r == s[i..i + |r|] && AllSpace(s[i + |r|..])
  {

  }

  /** A piece yielded by `strings.Lines`: non-empty, with no line feed
      except possibly as its last code point. */
  predicate IsLine(l: string) {
    |l| > 0 && '\n' !in l[..|l| - 1]
  }

  /** The piece ends with its line feed terminator. */
  predicate Terminated(l: string) {
    |l| > 0 && l[|l| - 1] == '\n'
  }

  /** The shape of every output of `strings.Lines`: all pieces are lines and
      only the last one may lack a terminator. */
  predicate WellFormedLines(ls: seq<string>) {
    && (forall i | 0 <= i < |ls| :: IsLine(ls[i]))
    && (forall i | 0 <= i < |ls| - 1 :: Terminated(ls[i]))
  }

  /** Concatenation of pieces, as a `strings.Builder` accumulates them. */
  function Join(ls: seq<string>): string {
    if |ls| == 0 then "" else ls[0] + Join(ls[1..])
  }

  /** `strings.Lines`: split after every line feed; the final piece has no
      terminator when the text does not end in one, and "" yields nothing. */
  function Lines(s: string): (ls: seq<string>)
    ensures Join(ls) == s
    ensures WellFormedLines(ls)
    ensures |ls| == 0 <==> s == ""
    decreases |s|
  {
    if |s| == 0 then []
    else
      var i := IndexByte(s, '\n');
      if i == -1 then
        LastPiece(s);
        [s]
      else
        var rest := Lines(s[i + 1..]);
        PieceBeforeRest(s, i, rest);
        [s[..i + 1]] + rest
  }

  /** A text without line feed is a single unterminated piece. */
  lemma LastPiece(s: string)
    requires s != "" && '\n' !in s
    ensures Join([s]) == s && WellFormedLines([s])
  {

  }

  /** The text up to and including its first line feed, followed by the
      pieces of what comes after, are the pieces of the text. */
  lemma PieceBeforeRest(s: string, i: nat, rest: seq<string>)
    requires i < |s| && s[i] == '\n' && '\n' !in s[..i]
    requires Join(rest) == s[i + 1..] && WellFormedLines(rest)
    ensures Join([s[..i + 1]] + rest) == s
    ensures WellFormedLines([s[..i + 1]] + rest)
  {

  }

  /** A terminated line glued in front of more text is found again by the
      search for the first line feed. */
  lemma FirstNewlineOfLine(l: string, t: string)
    requires IsLine(l) && Terminated(l)
    ensures IndexByte(l + t, '\n') == |l| - 1
  {
    var s := l + t;
    var i := IndexByte(s, '\n');
    assert s[|l| - 1] == '\n';
    assert s[..|l| - 1] == l[..|l| - 1];
  }

  /** An unterminated line holds no line feed at all. */
  lemma UnterminatedLine(l: string)
    requires IsLine(l) && !Terminated(l)
    ensures '\n' !in l
  {

  }

  lemma {:induction false} JoinAppend(a: seq<string>, b: seq<string>)
    ensures Join(a + b) == Join(a) + Join(b)
    decreases |a|
  {
    if |a| == 0 {
      assert a + b == b;
    } else {
      assert (a + b)[1..] == a[1..] + b;
      JoinAppend(a[1..], b);
    }
  }

  /** `Lines` inverts `Join` on every sequence shaped like its own output. */
  lemma {:induction false} LinesOfJoin(ls: seq<string>)
    requires WellFormedLines(ls)
    ensures Lines(Join(ls)) == ls
    decreases |ls|
  {
    if |ls| > 0 {
      var l := ls[0];
      var rest := ls[1..];
      var s := Join(ls);
      assert s == l + Join(rest);
      WellFormedUncons(ls);
      if Terminated(l) {
        FirstNewlineOfLine(l, Join(rest));
        assert s[..|l|] == l;
        assert s[|l|..] == Join(rest);
        LinesOfJoin(rest);
      } else {
        UnterminatedLine(l);
        assert |rest| == 0;
        assert s == l;
      }
    }
  }

  /** The last piece of a non-empty text is terminated exactly when the text
      ends in a line feed. */
  lemma LastLineTerminated(s: string)
    requires s != ""
    ensures Terminated(Lines(s)[|Lines(s)| - 1]) <==> s[|s| - 1] == '\n'
  {

  }

  /** The head and the tail of a well-formed line sequence. */
  lemma WellFormedUncons(ls: seq<string>)
    requires WellFormedLines(ls) && |ls| > 0
    ensures IsLine(ls[0]) && (|ls| > 1 ==> Terminated(ls[0]))
    ensures WellFormedLines([ls[0]]) && WellFormedLines(ls[1..])
  {

  }

  /** Gluing well-formed line sequences keeps them well formed when the
      first one ends with a terminated line. */
  lemma WellFormedAppend(la: seq<string>, lb: seq<string>)
    requires WellFormedLines(la) && WellFormedLines(lb)
    requires |la| > 0 ==> Terminated(la[|la| - 1])
    ensures WellFormedLines(la + lb)
  {

  }

  /** Splitting distributes over `a + b` when `a` is empty or ends in a
      line feed, so that `b` starts on a line boundary. */
  lemma LinesAppend(a: string, b: string)
    requires a == "" || a[|a| - 1] == '\n'
    ensures Lines(a + b) == Lines(a) + Lines(b)
  {
    var la, lb := Lines(a), Lines(b);
    if a == "" {
      assert a + b == b;
      assert la + lb == lb;
    } else {
      LastLineTerminated(a);
      WellFormedAppend(la, lb);
      JoinAppend(la, lb);
      LinesOfJoin(la + lb);
    }
  }

}
