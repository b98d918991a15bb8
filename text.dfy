/**
 * String helpers shared by the models: prefixes, the character classes of
 * JavaScript regular expressions, splitting on separators and decimal
 * formatting of numbers.
 */
module Text {

  predicate StartsWith(s: string, prefix: string) {
    prefix <= s
  }

  /** The characters a JavaScript regular expression treats as line terminators:
      `.` never matches them, and `^`/`$` in multiline mode stop at them. */
  predicate IsLineTerminator(c: char) {
    c == '\n' || c == '\r' || c == '\U{2028}' || c == '\U{2029}'
  }

  predicate NoLineTerminator(s: string) {
    forall i :: 0 <= i < |s| ==> !IsLineTerminator(s[i])
  }

  predicate IsNewline(c: char) {
    c == '\n'
  }

  /** JavaScript's `\s`: white space and line terminators. */
  predicate IsWhitespace(c: char) {
    || c == '\t' || c == '\n' || c == '\U{000B}' || c == '\U{000C}' || c == '\r' || c == ' '
    || c == '\U{00A0}' || c == '\U{1680}' || ('\U{2000}' <= c <= '\U{200A}')
    || c == '\U{2028}' || c == '\U{2029}' || c == '\U{202F}' || c == '\U{205F}'
    || c == '\U{3000}' || c == '\U{FEFF}'
  }

  /** JavaScript's `\w` without the unicode flag. */
  predicate IsWordChar(c: char) {
    ('a' <= c <= 'z') || ('A' <= c <= 'Z') || ('0' <= c <= '9') || c == '_'
  }

  predicate IsDigit(c: char) {
    '0' <= c <= '9'
  }

  /** Length of the longest prefix of `s` made of characters satisfying `p`. */
  function LeadingRun(s: string, p: char -> bool): (n: nat)
    ensures n <= |s|
    ensures forall i :: 0 <= i < n ==> p(s[i])
    ensures n < |s| ==> !p(s[n])
  {
    if s == [] || !p(s[0]) then 0 else 1 + LeadingRun(s[1..], p)
  }

  /** The pieces of `s` between separator characters, as JavaScript's
      `split` with a one-character separator gives them: one more piece than
      there are separators, empty pieces kept. */
  function Split(s: string, isSep: char -> bool): (r: seq<string>)
    ensures |r| >= 1
    ensures forall i, j :: 0 <= i < |r| && 0 <= j < |r[i]| ==> !isSep(r[i][j])
  {
    if s == [] then [""]
    else
      var rest := Split(s[1..], isSep);
      if isSep(s[0]) then [""] + rest
      else [[s[0]] + rest[0]] + rest[1..]
  }

  /** Lines joined back with "\n" between them. */
  function JoinLines(ls: seq<string>): (r: string)
    requires |ls| >= 1
    ensures ls[0] <= r
  {
    if |ls| == 1 then ls[0] else ls[0] + "\n" + JoinLines(ls[1..])
  }

  predicate NoNewline(s: string) {
    forall i :: 0 <= i < |s| ==> s[i] != '\n'
  }

  lemma {:induction false} SplitLine(l: string, rest: string)
    requires NoNewline(l)
    ensures Split(l + "\n" + rest, IsNewline) == [l] + Split(rest, IsNewline)
    decreases |l|
  {
    if l == [] {
      assert l + "\n" + rest == ['\n'] + rest;
      assert (['\n'] + rest)[1..] == rest;
    } else {
      var t := l + "\n" + rest;
      assert t[1..] == l[1..] + "\n" + rest;
      SplitLine(l[1..], rest);
      assert [l[0]] + l[1..] == l;
    }
  }

  lemma {:induction false} SplitNoNewline(l: string)
    requires NoNewline(l)
    ensures Split(l, IsNewline) == [l]
    decreases |l|
  {
    if l != [] {
      SplitNoNewline(l[1..]);
      assert [l[0]] + l[1..] == l;
    }
  }

  /** Splitting a text on "\n" and joining the lines back gives the text. */
  lemma {:induction false} JoinSplit(s: string)
    ensures JoinLines(Split(s, IsNewline)) == s
    decreases |s|
  {
    if s != [] {
      JoinSplit(s[1..]);
      var rest := Split(s[1..], IsNewline);
      if s[0] == '\n' {
        assert s == "\n" + s[1..];
      } else if |rest| == 1 {
        assert [s[0]] + rest[0] == s;
      } else {
        assert rest == [rest[0]] + rest[1..];
        assert JoinLines(rest) == rest[0] + "\n" + JoinLines(rest[1..]);
        assert s == [s[0]] + s[1..];
      }
    }
  }

  /** Joining lines free of "\n" and splitting again gives the lines. */
  lemma {:induction false} SplitJoin(ls: seq<string>)
    requires |ls| >= 1
    requires forall i :: 0 <= i < |ls| ==> NoNewline(ls[i])
    ensures Split(JoinLines(ls), IsNewline) == ls
    decreases |ls|
  {
    if |ls| == 1 {
      SplitNoNewline(ls[0]);
    } else {
      SplitJoin(ls[1..]);
      SplitLine(ls[0], JoinLines(ls[1..]));
      assert [ls[0]] + ls[1..] == ls;
    }
  }

  function Digit(d: nat): (c: char)
    requires d < 10
    ensures IsDigit(c)
  {
    (48 + d) as char
  }

  /** Decimal text of a natural number, as JavaScript's `toString` and
      template literals print an integer. */
  function NatToString(n: nat): (r: string)
    ensures |r| >= 1
    ensures forall i :: 0 <= i < |r| ==> IsDigit(r[i])
  {
    if n < 10 then [Digit(n)] else NatToString(n / 10) + [Digit(n % 10)]
  }

  /** The number a string of decimal digits denotes. */
  function DecimalValue(s: string): nat
    requires forall i :: 0 <= i < |s| ==> IsDigit(s[i])
  {
    if s == [] then 0
    else
      assert IsDigit(s[|s| - 1]);
      10 * DecimalValue(s[..|s| - 1]) + (s[|s| - 1] as int - 48)
  }

  lemma {:induction false} DecimalValueOfNatToString(n: nat)
    ensures DecimalValue(NatToString(n)) == n
  {
    var r := NatToString(n);
    if n >= 10 {
      DecimalValueOfNatToString(n / 10);
      assert r[..|r| - 1] == NatToString(n / 10);
    }
  }
}
