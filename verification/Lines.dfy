/** Text read line by line: as a file opened in text mode yields it, or as Python's splitlines cuts it. */
module Lines {

  datatype Reader = InFile | InSplitlines

  /** Both readers see text whose line ends were translated; splitlines knows eight more characters that end a
      line: vertical tab, form feed, three separators, next line, and the two Unicode separators. */
  predicate Break(c: char, r: Reader) {
    var n := c as int;
    c == '\n' || c == '\r'
    || (r.InSplitlines? && (n == 0x0B || n == 0x0C || 0x1C <= n <= 0x1E || n == 0x85 || n == 0x2028 || n == 0x2029))
  }

  predicate Blank(c: char) {
    var n := c as int;
    c == ' ' || 9 <= n <= 13 || 0x1C <= n <= 0x1F || n == 0x85 || n == 0xA0 || n == 0x1680
    || 0x2000 <= n <= 0x200A || n == 0x2028 || n == 0x2029 || n == 0x202F || n == 0x205F || n == 0x3000
  }

  predicate NoBreaks(s: string, r: Reader) {
    forall i :: 0 <= i < |s| ==> !Break(s[i], r)
  }

  /** Neither end of s is blank, so stripping leaves it alone. */
  predicate Stripped(s: string) {
    s != "" && !Blank(s[0]) && !Blank(s[|s| - 1])
  }

  function StripLeft(s: string): string {
    if s != "" && Blank(s[0]) then StripLeft(s[1..]) else s
  }

  function StripRight(s: string): string {
    if s != "" && Blank(s[|s| - 1]) then StripRight(s[..|s| - 1]) else s
  }

  function Strip(s: string): string {
    StripRight(StripLeft(s))
  }

  lemma {:induction false} StripLeftEnds(s: string)
    ensures StripLeft(s) == "" || !Blank(StripLeft(s)[0])
    ensures forall r :: NoBreaks(s, r) ==> NoBreaks(StripLeft(s), r)
  {
    if s != "" && Blank(s[0]) { StripLeftEnds(s[1..]); }
  }

  /** Stripping on the right leaves something of a text that does not begin with a blank. */
  lemma {:induction false} StripRightKeeps(s: string)
    requires s == "" || !Blank(s[0])
    ensures StripRight(s) == "" <==> s == ""
  {
    if s != "" && Blank(s[|s| - 1]) { StripRightKeeps(s[..|s| - 1]); }
  }

  /** Stripping a text that ends in a stripped one strips only the front. */
  lemma {:induction false} StripInFront(p: string, q: string)
    requires Stripped(q)
    ensures Strip(p + q) == StripLeft(p) + q
  {
    var t := p + q;
    if p == "" {
      assert t == q;
    } else if Blank(p[0]) {
      assert t[1..] == p[1..] + q;
      StripInFront(p[1..], q);
    } else {
      assert t[|t| - 1] == q[|q| - 1];
    }
  }

  lemma {:induction false} StripRightEnds(s: string, r: Reader)
    requires NoBreaks(s, r) && (s == "" || !Blank(s[0]))
    ensures NoBreaks(StripRight(s), r) && (StripRight(s) == "" || Stripped(StripRight(s)))
  {
    if s != "" && Blank(s[|s| - 1]) { StripRightEnds(s[..|s| - 1], r); }
  }

  /** What stripping leaves of a line is empty, or a line with no blank at either end. */
  lemma StripEnds(s: string, r: Reader)
    requires NoBreaks(s, r)
    ensures NoBreaks(Strip(s), r) && (Strip(s) == "" || Stripped(Strip(s)))
  {
    StripLeftEnds(s);
    StripRightEnds(StripLeft(s), r);
  }

  function FirstLine(t: string, r: Reader): (line: string)
    ensures NoBreaks(line, r) && |line| <= |t|
  {
    if t == "" || Break(t[0], r) then "" else [t[0]] + FirstLine(t[1..], r)
  }

  /** What follows the first line and its terminator. A "\r\n" leaves an empty line behind,
      which every reader here skips. */
  function AfterLine(t: string, r: Reader): (rest: string)
    ensures t != "" ==> |rest| < |t|
  {
    if t == "" then "" else if Break(t[0], r) then t[1..] else AfterLine(t[1..], r)
  }

  /** Every line of the text is terminated. */
  predicate Complete(t: string, r: Reader) {
    t == "" || Break(t[|t| - 1], r)
  }

  lemma {:induction false} SplitAtLine(line: string, rest: string, r: Reader)
    requires NoBreaks(line, r)
    ensures FirstLine(line + ("\n" + rest), r) == line && AfterLine(line + ("\n" + rest), r) == rest
  {
    var t := line + ("\n" + rest);
    if line == "" {
      assert t == "\n" + rest && ("\n" + rest)[1..] == rest;
    } else {
      assert t[1..] == line[1..] + ("\n" + rest);
      SplitAtLine(line[1..], rest, r);
    }
  }

  lemma {:induction false} SplitAppended(t: string, more: string, r: Reader)
    requires Complete(t, r) && t != ""
    ensures FirstLine(t + more, r) == FirstLine(t, r) && AfterLine(t + more, r) == AfterLine(t, r) + more
    ensures Complete(AfterLine(t, r), r)
  {
    assert (t + more)[1..] == t[1..] + more;
    if !Break(t[0], r) {
      assert t[|t| - 1] == t[1..][|t[1..]| - 1];
      SplitAppended(t[1..], more, r);
    }
  }

  lemma {:induction false} WholeLine(line: string, r: Reader)
    requires NoBreaks(line, r)
    ensures FirstLine(line, r) == line && AfterLine(line, r) == ""
  {
    if line != "" { WholeLine(line[1..], r); }
  }

  lemma Assoc(a: string, b: string, c: string)
    ensures (a + b) + c == a + (b + c)
  {
  }
}
