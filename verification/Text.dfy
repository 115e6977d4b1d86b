/**
 Operations on strings: splitting into lines, joining, trimming and reading
 numbers, with the white space and line separators of Python's `str` (`int` reads ASCII digits only).
 */
module Text {
  import opened Wrappers

  predicate IsBreak(c: char) {
    c in {'\n', '\r', '\U{0B}', '\U{0C}', '\U{1C}', '\U{1D}', '\U{1E}', '\U{85}', '\U{2028}', '\U{2029}'}
  }

  predicate IsSpace(c: char) {
    || IsBreak(c)
    || c in {' ', '\t', '\U{1F}', '\U{A0}', '\U{1680}', '\U{202F}', '\U{205F}', '\U{3000}'}
    || '\U{2000}' <= c <= '\U{200A}'
  }

  /** A string that fits on one line. */
  predicate OneLine(s: string) {
    forall c | c in s :: !IsBreak(c)
  }

  function LineEnd(s: string): (n: nat)
    ensures n <= |s| && (n < |s| ==> IsBreak(s[n])) && OneLine(s[..n])
  {
    if s == "" || IsBreak(s[0]) then 0 else 1 + LineEnd(s[1..])
  }

  /** `str.splitlines()`: a carriage return and a line feed count once, and a final break ends the last line. */
  function SplitLines(s: string): (lines: seq<string>)
    ensures forall line | line in lines :: OneLine(line)
    decreases |s|
  {
    if s == "" then []
    else
      var n := LineEnd(s);
      if n == |s| then [s]
      else
        var next := if s[n] == '\r' && n + 1 < |s| && s[n + 1] == '\n' then n + 2 else n + 1;
        [s[..n]] + SplitLines(s[next..])
  }

  function Join(lines: seq<string>): string {
    if lines == [] then ""
    else if |lines| == 1 then lines[0]
    else lines[0] + "\n" + Join(lines[1..])
  }

  /** Every line followed by a line feed. */
  function Terminated(lines: seq<string>): string {
    if lines == [] then "" else lines[0] + "\n" + Terminated(lines[1..])
  }

  function LStrip(s: string): (t: string)
    ensures |t| <= |s| && t == s[|s| - |t|..]
  {
    if s != "" && IsSpace(s[0]) then LStrip(s[1..]) else s
  }

  function RStrip(s: string): (t: string)
    ensures t <= s && (t != "" ==> !IsSpace(t[|t| - 1]))
  {
    if s != "" && IsSpace(s[|s| - 1]) then RStrip(s[..|s| - 1]) else s
  }

  function Strip(s: string): string {
    RStrip(LStrip(s))
  }

  /** Neither end is white space, and something is there. */
  predicate Tight(s: string) {
    s != "" && !IsSpace(s[0]) && !IsSpace(s[|s| - 1])
  }

  /** The part of `s` before the first occurrence of `sep`, or all of it. */
  function Before(s: string, sep: string): string {
    if s == "" || sep <= s then "" else [s[0]] + Before(s[1..], sep)
  }

  /** `s.lstrip("-")`. */
  function DropDashes(s: string): string {
    if s != "" && s[0] == '-' then DropDashes(s[1..]) else s
  }

  /** `s.replace("\r\n", "\n")`. */
  function UnixBreaks(s: string): string {
    if |s| >= 2 && s[0] == '\r' && s[1] == '\n' then "\n" + UnixBreaks(s[2..])
    else if s == "" then ""
    else [s[0]] + UnixBreaks(s[1..])
  }

  predicate IsDigit(c: char) {
    '0' <= c <= '9'
  }

  function DigitValue(c: char): nat
    requires IsDigit(c)
  {
    c as nat - '0' as nat
  }

  /** The digits of a number, with single underscores between digits. */
  predicate IsNumeral(s: string) {
    && s != "" && IsDigit(s[0]) && IsDigit(s[|s| - 1])
    && forall i | 0 <= i < |s| :: IsDigit(s[i]) || (s[i] == '_' && 0 < i && IsDigit(s[i - 1]))
  }

  function NumeralValue(s: string): nat
    requires forall c | c in s :: IsDigit(c) || c == '_'
  {
    if s == "" then 0
    else
      var c := s[|s| - 1];
      var front := NumeralValue(s[..|s| - 1]);
      if c == '_' then front else front * 10 + DigitValue(c)
  }

  /** `int(s)`, with `None` for a ValueError. */
  function ParseInt(s: string): Option<int> {
    var t := Strip(s);
    if IsNumeral(t) then Some(NumeralValue(t))
    else if t != "" && t[0] == '+' && IsNumeral(t[1..]) then Some(NumeralValue(t[1..]))
    else if t != "" && t[0] == '-' && IsNumeral(t[1..]) then Some(0 - NumeralValue(t[1..]) as int)
    else None
  }

  function Decimal(n: nat): (s: string)
    ensures s != "" && forall c | c in s :: IsDigit(c)
  {
    if n < 10 then [('0' as nat + n) as char] else Decimal(n / 10) + [('0' as nat + n % 10) as char]
  }

  // ---------------------------------------------------------------- numbers

  lemma {:induction false} DecimalValue(n: nat)
    ensures NumeralValue(Decimal(n)) == n
  {
    var s := Decimal(n);
    if n >= 10 {
      DecimalValue(n / 10);
      assert s[..|s| - 1] == Decimal(n / 10);
    } else {
      assert s[..|s| - 1] == "";
    }
  }

  lemma DigitIsNotSpace(c: char)
    requires IsDigit(c)
    ensures !IsSpace(c) && c != '-' && c != ',' && c != '@' && c != '+'
  {
  }

  lemma DigitsAreNumeral(s: string)
    requires s != "" && forall c | c in s :: IsDigit(c)
    ensures IsNumeral(s) && Strip(s) == s
  {
    assert forall i | 0 <= i < |s| :: s[i] in s;
    DigitIsNotSpace(s[0]);
    DigitIsNotSpace(s[|s| - 1]);
    hide IsSpace;
    StripTight(s);
  }

  lemma ParseDecimal(n: nat)
    ensures ParseInt(Decimal(n)) == Some(n)
  {
    DecimalValue(n);
    DigitsAreNumeral(Decimal(n));
    hide Strip, Decimal, NumeralValue, IsNumeral;
  }

  // ---------------------------------------------------------------- trimming and searching

  lemma StripTight(s: string)
    requires Tight(s)
    ensures Strip(s) == s
  {
  }

  lemma {:induction false} LStripStarts(s: string)
    ensures LStrip(s) != "" ==> !IsSpace(LStrip(s)[0])
  {
    hide IsSpace;
    if s != "" && IsSpace(s[0]) {
      LStripStarts(s[1..]);
    }
  }

  lemma StripIsTight(s: string)
    ensures Strip(s) != "" ==> Tight(Strip(s))
  {
    hide IsSpace;
    LStripStarts(s);
  }

  lemma {:induction false} BeforeSep(u: string, sep: string, w: string)
    requires sep != "" && forall c | c in u :: c != sep[0]
    ensures Before(u + sep + w, sep) == u
  {
    if u == "" {
      assert u + sep + w == sep + w;
      assert (sep + w)[..|sep|] == sep;
    } else {
      assert forall c | c in u[1..] :: c in u;
      BeforeSep(u[1..], sep, w);
      assert (u + sep + w)[1..] == u[1..] + sep + w;
      assert (u + sep + w)[0] == u[0];
      assert u[0] in u;
    }
  }

  // ---------------------------------------------------------------- lines

  lemma {:induction false} LineEndAt(u: string, w: string)
    requires OneLine(u)
    ensures LineEnd(u + "\n" + w) == |u|
  {
    if u == "" {
      assert (u + "\n" + w)[0] == '\n';
    } else {
      assert u[0] in u;
      assert OneLine(u[1..]) by { assert forall c | c in u[1..] :: c in u; }
      assert (u + "\n" + w)[1..] == u[1..] + "\n" + w;
      LineEndAt(u[1..], w);
    }
  }

  lemma {:induction false} LineEndAll(u: string)
    requires OneLine(u)
    ensures LineEnd(u) == |u|
  {
    if u != "" {
      assert u[0] in u;
      assert OneLine(u[1..]) by { assert forall c | c in u[1..] :: c in u; }
      LineEndAll(u[1..]);
    }
  }

  lemma SplitFirst(u: string, w: string)
    requires OneLine(u)
    ensures SplitLines(u + "\n" + w) == [u] + SplitLines(w)
  {
    var s := u + "\n" + w;
    LineEndAt(u, w);
    assert s[|u|] == '\n' && s[..|u|] == u && s[|u| + 1..] == w;
  }

  /** Splitting undoes terminating. */
  lemma {:induction false} SplitTerminated(lines: seq<string>)
    requires forall line | line in lines :: OneLine(line)
    ensures SplitLines(Terminated(lines)) == lines
  {
    if lines != [] {
      SplitTerminated(lines[1..]);
      SplitFirst(lines[0], Terminated(lines[1..]));
    }
  }

  /** Splitting undoes joining, unless the last line is empty. */
  lemma {:induction false} SplitJoined(lines: seq<string>)
    requires forall line | line in lines :: OneLine(line)
    requires lines != [] ==> lines[|lines| - 1] != ""
    ensures SplitLines(Join(lines)) == lines
  {
    if |lines| == 1 {
      LineEndAll(lines[0]);
    } else if |lines| > 1 {
      SplitJoined(lines[1..]);
      SplitFirst(lines[0], Join(lines[1..]));
    }
  }

  lemma {:induction false} JoinTerminated(lines: seq<string>)
    requires lines != []
    ensures Join(lines) + "\n" == Terminated(lines)
  {
    if |lines| == 1 {
      assert Terminated(lines[1..]) == "";
      assert Terminated(lines) == lines[0] + "\n" + "";
    } else {
      JoinTerminated(lines[1..]);
      assert lines[0] + "\n" + Join(lines[1..]) + "\n" == lines[0] + "\n" + (Join(lines[1..]) + "\n");
    }
  }

  lemma {:induction false} JoinEnds(lines: seq<string>)
    requires lines != [] && lines[0] != "" && lines[|lines| - 1] != ""
    ensures var s := Join(lines);
            s != "" && s[0] == lines[0][0] && s[|s| - 1] == lines[|lines| - 1][|lines[|lines| - 1]| - 1]
  {
    if |lines| > 1 {
      JoinLast(lines);
    }
  }

  lemma {:induction false} JoinLast(lines: seq<string>)
    requires lines != [] && lines[|lines| - 1] != ""
    ensures var s := Join(lines);
            s != "" && s[|s| - 1] == lines[|lines| - 1][|lines[|lines| - 1]| - 1]
  {
    if |lines| > 1 {
      JoinLast(lines[1..]);
    }
  }

  lemma {:induction false} JoinChars(lines: seq<string>, c: char)
    requires c in Join(lines) && c != '\n'
    ensures exists line | line in lines :: c in line
  {
    if |lines| == 1 {
      assert lines[0] in lines;
    } else {
      assert lines[0] in lines;
      if c !in lines[0] {
        assert c !in lines[0] + "\n";
        assert c in (lines[0] + "\n") + Join(lines[1..]);
        JoinChars(lines[1..], c);
      }
    }
  }

  lemma {:induction false} NoReturns(s: string)
    requires '\r' !in s
    ensures UnixBreaks(s) == s
  {
    if s != "" {
      assert s[0] in s;
      assert '\r' !in s[1..] by { assert forall c | c in s[1..] :: c in s; }
      NoReturns(s[1..]);
    }
  }
}
