/**
 * The server's `ServerSetting.ini` as text: `read`'s line loop into a
 * dictionary, `write`'s replacement of one `key=` line, and the tables of
 * named values for the enumerated settings. File access is left to the
 * caller: every operation takes the file's contents as a string.
 */
module ServerSetting {
  import opened Options
  import opened Text

  // ---------------------------------------------------------------------------
  // read

  /** `/^\s*;/`: the first character after leading white space is `;`. */
  predicate IsComment(line: string) {
    var n := LeadingRun(line, IsWhitespace);
    n < |line| && line[n] == ';'
  }

  /** The text before the first `c`, or all of `s` when there is none. */
  function Before(s: string, c: char): (r: string)
    ensures r <= s && c !in r
    ensures |r| < |s| ==> s[|r|] == c
    ensures c in s ==> |r| < |s|
  {
    if s == [] || s[0] == c then [] else [s[0]] + Before(s[1..], c)
  }

  /** The text after the first `c`. */
  function After(s: string, c: char): string
    requires c in s
  {
    s[|Before(s, c)| + 1..]
  }

  /** A line `read` keeps: not a comment, and holding an `=`. */
  predicate Kept(line: string) {
    !IsComment(line) && '=' in line
  }

  /** `line.split("=")[0]`. */
  function LineKey(line: string): string {
    Before(line, '=')
  }

  /** `line.split("=")[1]`: the text between the first and the second `=`. */
  function LineValue(line: string): string
    requires '=' in line
  {
    Before(After(line, '='), '=')
  }

  /** Assigning a property of a plain object: assigning a string to
      `__proto__` changes nothing. */
  function SetProperty(obj: map<string, string>, key: string, value: string): map<string, string> {
    if key == "__proto__" then obj else obj[key := value]
  }

  /** One iteration of `read`'s loop. */
  function ReadLine(acc: map<string, string>, line: string): map<string, string> {
    if Kept(line) then SetProperty(acc, LineKey(line), LineValue(line)) else acc
  }

  function ReadLines(acc: map<string, string>, lines: seq<string>): map<string, string>
    decreases |lines|
  {
    if lines == [] then acc else ReadLines(ReadLine(acc, lines[0]), lines[1..])
  }

  /** What `read` returns for the file's contents: every key but
      `__proto__` that a kept line gives, with the value of the last such
      line. */
  function Parse(text: string): (r: map<string, string>)
    ensures forall k :: k in r <==> k != "__proto__" && LastValue(Split(text, IsNewline), k).Some?
    ensures forall k :: k in r ==> r[k] == LastValue(Split(text, IsNewline), k).value
  {
    var lines := Split(text, IsNewline);
    ParseMeaningAll(lines);
    ReadLines(map[], lines)
  }

  lemma ParseMeaningAll(lines: seq<string>)
    ensures forall k :: k in ReadLines(map[], lines) <==> k != "__proto__" && LastValue(lines, k).Some?
    ensures forall k :: k in ReadLines(map[], lines) ==> ReadLines(map[], lines)[k] == LastValue(lines, k).value
  {
    forall k {
      ParseMeaning(lines, k);
    }
  }

  lemma {:induction false} ReadLinesSnoc(acc: map<string, string>, lines: seq<string>, line: string)
    ensures ReadLines(acc, lines + [line]) == ReadLine(ReadLines(acc, lines), line)
    decreases |lines|
  {
    if lines == [] {
      assert lines + [line] == [line];
    } else {
      assert (lines + [line])[1..] == lines[1..] + [line];
      ReadLinesSnoc(ReadLine(acc, lines[0]), lines[1..], line);
    }
  }

  /** `read`: the loop over the lines of the file. */
  method Read(text: string) returns (result: map<string, string>)
    ensures result == Parse(text)
  {
    var lines := Split(text, IsNewline);
    result := map[];
    for i := 0 to |lines|
      invariant result == ReadLines(map[], lines[..i])
    {
      var line := lines[i];
      ReadLinesSnoc(map[], lines[..i], line);
      assert lines[..i + 1] == lines[..i] + [line];
      if IsComment(line) {
        continue;
      }
      if '=' !in line {
        continue;
      }
      var key, value := LineKey(line), LineValue(line);
      result := SetProperty(result, key, value);
    }
    assert lines[..|lines|] == lines;
  }

  /** The value the last kept line with this key gives it. */
  function LastValue(lines: seq<string>, key: string): Option<string>
    decreases |lines|
  {
    if lines == [] then None
    else
      var line := lines[|lines| - 1];
      if Kept(line) && LineKey(line) == key then Some(LineValue(line))
      else LastValue(lines[..|lines| - 1], key)
  }

  /** `read` skips comment lines and lines without `=`; every other line sets
      its key to its value, later lines overwriting earlier ones, except that
      `__proto__` is never set. */
  lemma {:induction false} ParseMeaning(lines: seq<string>, key: string)
    ensures key in ReadLines(map[], lines) <==> key != "__proto__" && LastValue(lines, key).Some?
    ensures key in ReadLines(map[], lines) ==> ReadLines(map[], lines)[key] == LastValue(lines, key).value
    decreases |lines|
  {
    if lines != [] {
      var init, line := lines[..|lines| - 1], lines[|lines| - 1];
      assert lines == init + [line];
      ReadLinesSnoc(map[], init, line);
      ParseMeaning(init, key);
    }
  }

  // ---------------------------------------------------------------------------
  // write: `data.replace(new RegExp(`^${key}=.*$`, "m"), `${key}=${value}`)`

  /** Where the multiline anchor `^` can match. */
  predicate LineStart(text: string, p: nat)
    requires p <= |text|
  {
    p == 0 || IsLineTerminator(text[p - 1])
  }

  predicate MatchesAt(text: string, pat: string, p: nat)
    requires p <= |text|
  {
    LineStart(text, p) && StartsWith(text[p..], pat)
  }

  /** The leftmost position at or after `from` where `^pat` matches. */
  function FirstMatch(text: string, pat: string, from: nat): (r: Option<nat>)
    requires from <= |text|
    ensures r.Some? ==> from <= r.value && r.value + |pat| <= |text|
    decreases |text| - from
  {
    if MatchesAt(text, pat, from) then Some(from)
    else if from == |text| then None
    else FirstMatch(text, pat, from + 1)
  }

  /** `FirstMatch` finds the leftmost match, and finds none only when there is none. */
  lemma {:induction false} FirstMatchSpec(text: string, pat: string, from: nat)
    requires from <= |text|
    ensures var r := FirstMatch(text, pat, from);
      && (r.Some? ==> MatchesAt(text, pat, r.value) && forall p :: from <= p < r.value ==> !MatchesAt(text, pat, p))
      && (r.None? ==> forall p :: from <= p <= |text| ==> !MatchesAt(text, pat, p))
    decreases |text| - from
  {
    if !MatchesAt(text, pat, from) && from < |text| {
      FirstMatchSpec(text, pat, from + 1);
    }
  }

  /** Where `.*$` stops: the first line terminator at or after `i`, or the end. */
  function LineEnd(text: string, i: nat): (q: nat)
    requires i <= |text|
    ensures i <= q <= |text|
    decreases |text| - i
  {
    if i == |text| || IsLineTerminator(text[i]) then i else LineEnd(text, i + 1)
  }

  /** `.*` takes every character up to the next line terminator, and `$` stops there. */
  lemma {:induction false} LineEndSpec(text: string, i: nat)
    requires i <= |text|
    ensures var q := LineEnd(text, i);
      && (q < |text| ==> IsLineTerminator(text[q]))
      && forall j :: i <= j < q ==> !IsLineTerminator(text[j])
    decreases |text| - i
  {
    if i < |text| && !IsLineTerminator(text[i]) {
      LineEndSpec(text, i + 1);
    }
  }

  /** The replacement string's `$` patterns as `String.prototype.replace`
      expands them for a pattern without capture groups: `$$` is `$`, `$&` the
      matched text, `` $` `` the text before it, `$'` the text after it; any
      other `$` stands for itself. */
  function Substitute(template: string, matched: string, before: string, after: string): (r: string)
    ensures '$' !in template ==> r == template
    decreases |template|
  {
    if template == [] then []
    else if template[0] == '$' && |template| >= 2 && template[1] in "$&`'" then
      (match template[1]
       case '$' => "$"
       case '&' => matched
       case '`' => before
       case _ => after) + Substitute(template[2..], matched, before, after)
    else [template[0]] + Substitute(template[1..], matched, before, after)
  }

  /** The span `^pat.*$` matches: from the first line start where `pat`
      follows to the end of that line. */
  function MatchSpan(text: string, pat: string): (r: Option<(nat, nat)>)
    ensures r.Some? ==> r.value.0 + |pat| <= r.value.1 <= |text|
  {
    match FirstMatch(text, pat, 0)
    case None => None
    case Some(p) => Some((p, LineEnd(text, p + |pat|)))
  }

  /** `text.replace(/^pat.*$/m, template)` for a `pat` without regular
      expression metacharacters: the first line starting with `pat` is
      replaced, up to the next line terminator, by the expanded template. */
  function Replace(text: string, pat: string, template: string): (r: string)
    ensures MatchSpan(text, pat).None? ==> r == text
    ensures MatchSpan(text, pat).Some? ==>
      var (p, q) := MatchSpan(text, pat).value;
      text[..p] <= r && |text| - q <= |r| && r[|r| - (|text| - q)..] == text[q..]
    ensures '$' !in template ==> r == Splice(text, pat, template)
  {
    match MatchSpan(text, pat)
    case None => text
    case Some((p, q)) => text[..p] + Substitute(template, text[p..q], text[..p], text[q..]) + text[q..]
  }

  /** `write`: the first line that starts with `key=` becomes `key=value`;
      the text before that line and after its end is kept, and a text with no
      such line is returned as it was. */
  function Write(text: string, key: string, value: string): (r: string)
    ensures FirstMatch(text, key + "=", 0).None? ==> r == text
    ensures FirstMatch(text, key + "=", 0).Some? ==>
      var (p, q) := MatchSpan(text, key + "=").value;
      text[..p] <= r && |text| - q <= |r| && r[|r| - (|text| - q)..] == text[q..]
    ensures '$' !in key + value ==> r == Splice(text, key + "=", key + "=" + value)
  {
    Replace(text, key + "=", key + "=" + value)
  }

  /** The matched line replaced by `line`, taken literally. */
  function Splice(text: string, pat: string, line: string): string {
    match MatchSpan(text, pat)
    case None => text
    case Some((p, q)) => text[..p] + line + text[q..]
  }

  /** A `$&` in the value is expanded to the line being replaced, so the
      stored value is not the given one. */
  lemma WriteExpandsDollar()
    ensures Write("k=v", "k", "$&") == "k=k=v"
  {
    var text := "k=v";
    assert "k" + "=" == "k=" && "k=" + "$&" == "k=$&";
    assert MatchesAt(text, "k=", 0) by { assert text[0..][..2] == "k="; }
    assert FirstMatch(text, "k=", 0) == Some(0);
    assert LineEnd(text, 2) == 3 by { assert LineEnd(text, 3) == 3; }
    assert text[..0] == "" && text[0..3] == text && text[3..] == "";
    assert Substitute("", text, "", "") == "";
    assert Substitute("$&", text, "", "") == text;
    assert Substitute("=$&", text, "", "") == "=" + text;
    assert Substitute("k=$&", text, "", "") == "k=" + text;
  }

  /** A text without a newline is read as its one line. */
  lemma ParseOneLine(line: string)
    requires NoNewline(line)
    ensures Parse(line) == ReadLine(map[], line)
  {
    SplitNoNewline(line);
    assert ReadLines(map[], [line]) == ReadLines(ReadLine(map[], line), []);
  }

  lemma ExpandedLine()
    ensures Kept("k=k=v") && LineKey("k=k=v") == "k" && LineValue("k=k=v") == "k"
  {
    var r := "k=k=v";
    assert r == "k" + ['='] + "k=v";
    BeforeSplit("k", '=', "k=v");
    assert "k=v" == "k" + ['='] + "v";
    BeforeSplit("k", '=', "v");
    assert LeadingRun(r, IsWhitespace) == 0;
  }

  /** The line written for `k` and `$&` reads back as `k`, not `$&`. */
  lemma ReadExpandedDollar()
    ensures "k" in Parse("k=k=v") && Parse("k=k=v")["k"] == "k"
  {
    ParseOneLine("k=k=v");
    ExpandedLine();
  }

  /** `write`'s `.*$` stops at a `\r`, while `read` splits lines at `\n`
      only: in a file with `\r\n` line ends, a written value reads back with
      the `\r` after it, as every value of such a file does. */
  lemma ReadKeepsCarriageReturn(a: string, b: string)
    requires NoLineTerminator(a) && '=' !in a
    requires NoLineTerminator(b) && '=' !in b && '$' !in b
    ensures Write("k=" + a + "\r\n", "k", b) == "k=" + b + "\r\n"
    ensures "k" in Parse("k=" + a + "\r\n") && Parse("k=" + a + "\r\n")["k"] == a + "\r"
    ensures "k" in Parse(Write("k=" + a + "\r\n", "k", b)) && Parse(Write("k=" + a + "\r\n", "k", b))["k"] == b + "\r"
  {
    WriteBeforeCarriageReturn(a, b);
    CarriageReturnLine(a);
    CarriageReturnLine(b);
  }

  /** `write` keeps the `\r` that ends the line it replaces. */
  lemma WriteBeforeCarriageReturn(a: string, b: string)
    requires NoLineTerminator(a) && '$' !in b
    ensures Write("k=" + a + "\r\n", "k", b) == "k=" + b + "\r\n"
  {
    var text := "k=" + a + "\r\n";
    var e := 2 + |a|;
    assert "k" + "=" == "k=";
    assert text[e] == '\r' && text[e..] == "\r\n";
    assert forall j :: 2 <= j < e ==> text[j] == a[j - 2];
    assert MatchesAt(text, "k=", 0) by { assert text[0..][..2] == "k="; }
    assert FirstMatch(text, "k=", 0) == Some(0);
    LineEndSpec(text, 2);
    assert LineEnd(text, 2) == e;
    assert MatchSpan(text, "k=") == Some((0, e));
    assert '$' !in "k=" + b;
    assert Substitute("k=" + b, text[0..e], "", text[e..]) == "k=" + b;
    assert text[..0] == "";
  }

  /** A one-line `\r\n` file `k=v\r\n` reads `k` as `v\r`. */
  lemma CarriageReturnLine(v: string)
    requires '=' !in v && NoNewline(v)
    ensures "k" in Parse("k=" + v + "\r\n") && Parse("k=" + v + "\r\n")["k"] == v + "\r"
  {
    var line := "k=" + v + "\r";
    assert "k=" + v + "\r\n" == line + "\n" + "";
    assert NoNewline(line) by { assert forall i :: 2 <= i < |line| - 1 ==> line[i] == v[i - 2]; }
    SplitLine(line, "");
    assert Split("", IsNewline) == [""];
    assert line == "k" + ['='] + (v + "\r");
    BeforeSplit("k", '=', v + "\r");
    assert '=' !in v + "\r";
    assert LeadingRun(line, IsWhitespace) == 0;
    assert ReadLines(map[], [line, ""]) == ReadLines(ReadLine(map[], line), [""]);
    assert ReadLines(ReadLine(map[], line), [""]) == ReadLines(ReadLine(map[], line), []);
  }

  lemma {:induction false} BeforeSplit(a: string, c: char, b: string)
    requires c !in a
    ensures Before(a + [c] + b, c) == a
    ensures c in a + [c] + b && After(a + [c] + b, c) == b
    decreases |a|
  {
    if a == [] {
      assert a + [c] + b == [c] + b;
    } else {
      assert (a + [c] + b)[1..] == a[1..] + [c] + b;
      BeforeSplit(a[1..], c, b);
    }
  }

  // The round trip. The text is taken to use "\n" as its only line
  // terminator, so that the lines `read` sees are the lines `^` and `$` see.

  predicate OnlyNewlines(text: string) {
    forall i :: 0 <= i < |text| && IsLineTerminator(text[i]) ==> text[i] == '\n'
  }

  /** The number of lines starting with `pat`. */
  function CountPrefixed(lines: seq<string>, pat: string): nat {
    if lines == [] then 0
    else (if StartsWith(lines[0], pat) then 1 else 0) + CountPrefixed(lines[1..], pat)
  }

  /** The first line starting with `pat` replaced by `line`. */
  function ReplaceFirst(lines: seq<string>, pat: string, line: string): (r: seq<string>)
    ensures |r| == |lines|
  {
    if lines == [] then []
    else if StartsWith(lines[0], pat) then [line] + lines[1..]
    else [lines[0]] + ReplaceFirst(lines[1..], pat, line)
  }

  lemma {:induction false} SkipInsideLine(l: string, rest: string, pat: string, i: nat)
    requires NoLineTerminator(l) && 1 <= i <= |l|
    ensures FirstMatch(l + "\n" + rest, pat, i) == FirstMatch(l + "\n" + rest, pat, |l| + 1)
    decreases |l| - i
  {
    var text := l + "\n" + rest;
    assert text[i - 1] == l[i - 1];
    if i < |l| {
      SkipInsideLine(l, rest, pat, i + 1);
    } else {
      assert text[|l|] == '\n';
      assert !MatchesAt(text, pat, i) by { assert !LineStart(text, i); }
    }
  }

  lemma {:induction false} NoMatchInsideLastLine(l: string, pat: string, i: nat)
    requires NoLineTerminator(l) && 1 <= i <= |l|
    ensures FirstMatch(l, pat, i) == None
    decreases |l| - i
  {
    assert !LineStart(l, i) by { assert l[i - 1] == l[i - 1]; }
    if i < |l| {
      NoMatchInsideLastLine(l, pat, i + 1);
    }
  }

  function Shift(r: Option<nat>, k: nat): Option<nat> {
    match r
    case None => None
    case Some(p) => Some(p + k)
  }

  lemma {:induction false} MatchInRest(l: string, rest: string, pat: string, j: nat)
    requires j <= |rest|
    ensures FirstMatch(l + "\n" + rest, pat, |l| + 1 + j) == Shift(FirstMatch(rest, pat, j), |l| + 1)
    decreases |rest| - j
  {
    var text := l + "\n" + rest;
    var k := |l| + 1;
    assert text[k + j..] == rest[j..];
    assert LineStart(text, k + j) == LineStart(rest, j) by {
      if j == 0 { assert text[k - 1] == '\n'; } else { assert text[k + j - 1] == rest[j - 1]; }
    }
    if j < |rest| && !MatchesAt(rest, pat, j) {
      MatchInRest(l, rest, pat, j + 1);
    }
  }

  lemma {:induction false} LineEndInRest(l: string, rest: string, j: nat)
    requires j <= |rest|
    ensures LineEnd(l + "\n" + rest, |l| + 1 + j) == |l| + 1 + LineEnd(rest, j)
    decreases |rest| - j
  {
    var text := l + "\n" + rest;
    if j < |rest| {
      assert text[|l| + 1 + j] == rest[j];
      if !IsLineTerminator(rest[j]) {
        LineEndInRest(l, rest, j + 1);
      }
    }
  }

  lemma {:induction false} LineEndInLine(text: string, l: string, i: nat)
    requires NoLineTerminator(l) && l <= text && i <= |l|
    requires |text| == |l| || text[|l|] == '\n'
    ensures LineEnd(text, i) == |l|
    decreases |l| - i
  {
    if i < |l| {
      assert text[i] == l[i];
      LineEndInLine(text, l, i + 1);
    }
  }

  /** A pattern free of line terminators that starts a text starts its first line. */
  lemma PrefixWithinLine(l: string, rest: string, pat: string)
    requires NoLineTerminator(pat)
    ensures StartsWith(l + "\n" + rest, pat) <==> StartsWith(l, pat)
  {
    var text := l + "\n" + rest;
    if StartsWith(text, pat) {
      assert |pat| <= |l| by {
        assert text[|l|] == '\n';
        assert forall i :: 0 <= i < |pat| ==> pat[i] == text[i];
      }
      assert l[..|pat|] == text[..|pat|];
    }
    if StartsWith(l, pat) {
      assert text[..|pat|] == l[..|pat|];
    }
  }

  /** The first match in a text whose first line does not start with the pattern. */
  lemma FirstMatchTail(l: string, rest: string, pat: string)
    requires NoLineTerminator(l) && NoLineTerminator(pat) && !StartsWith(l, pat)
    ensures FirstMatch(l + "\n" + rest, pat, 0) == Shift(FirstMatch(rest, pat, 0), |l| + 1)
  {
    var text := l + "\n" + rest;
    PrefixWithinLine(l, rest, pat);
    assert text[0..] == text;
    assert !MatchesAt(text, pat, 0);
    if |l| > 0 {
      SkipInsideLine(l, rest, pat, 1);
    }
    MatchInRest(l, rest, pat, 0);
  }

  lemma SpliceHead(l: string, rest: string, pat: string, line: string)
    requires NoLineTerminator(l) && StartsWith(l, pat)
    ensures Splice(l + "\n" + rest, pat, line) == line + "\n" + rest
  {
    var text := l + "\n" + rest;
    assert text[0..][..|pat|] == l[..|pat|];
    assert MatchesAt(text, pat, 0);
    LineEndInLine(text, l, |pat|);
    assert text[|l|..] == "\n" + rest;
  }

  lemma SpliceSingle(l: string, pat: string, line: string)
    requires NoLineTerminator(l)
    ensures Splice(l, pat, line) == if StartsWith(l, pat) then line else l
  {
    if StartsWith(l, pat) {
      assert l[0..] == l;
      assert MatchesAt(l, pat, 0);
      LineEndInLine(l, l, |pat|);
    } else {
      assert l[0..] == l;
      if |l| > 0 {
        NoMatchInsideLastLine(l, pat, 1);
      }
    }
  }

  lemma ShiftedPieces(l: string, rest: string, p: nat, q: nat, line: string)
    requires p <= q <= |rest|
    ensures (l + "\n" + rest)[..|l| + 1 + p] + line + (l + "\n" + rest)[|l| + 1 + q..]
         == l + "\n" + (rest[..p] + line + rest[q..])
  {
    var text := l + "\n" + rest;
    assert text[..|l| + 1 + p] == l + "\n" + rest[..p];
    assert text[|l| + 1 + q..] == rest[q..];
  }

  lemma SpliceShifted(l: string, rest: string, pat: string, line: string, p: nat)
    requires FirstMatch(rest, pat, 0) == Some(p)
    requires FirstMatch(l + "\n" + rest, pat, 0) == Some(|l| + 1 + p)
    ensures Splice(l + "\n" + rest, pat, line) == l + "\n" + Splice(rest, pat, line)
  {
    var q := LineEnd(rest, p + |pat|);
    assert MatchSpan(rest, pat) == Some((p, q));
    LineEndInRest(l, rest, p + |pat|);
    var text := l + "\n" + rest;
    assert MatchSpan(text, pat) == Some((|l| + 1 + p, |l| + 1 + q));
    assert Splice(rest, pat, line) == rest[..p] + line + rest[q..];
    assert Splice(text, pat, line) == text[..|l| + 1 + p] + line + text[|l| + 1 + q..];
    ShiftedPieces(l, rest, p, q, line);
  }

  lemma SpliceTail(l: string, rest: string, pat: string, line: string)
    requires NoLineTerminator(l) && NoLineTerminator(pat) && !StartsWith(l, pat)
    ensures Splice(l + "\n" + rest, pat, line) == l + "\n" + Splice(rest, pat, line)
  {
    FirstMatchTail(l, rest, pat);
    if FirstMatch(rest, pat, 0).Some? {
      SpliceShifted(l, rest, pat, line, FirstMatch(rest, pat, 0).value);
    }
  }

  /** In a text of lines, `^pat` matches somewhere exactly when some line starts with `pat`. */
  lemma {:induction false} MatchIffPrefixed(ls: seq<string>, pat: string)
    requires |ls| >= 1
    requires forall i :: 0 <= i < |ls| ==> NoLineTerminator(ls[i])
    requires NoLineTerminator(pat)
    ensures FirstMatch(JoinLines(ls), pat, 0).None? <==> CountPrefixed(ls, pat) == 0
    decreases |ls|
  {
    var l := ls[0];
    var text := JoinLines(ls);
    assert text[0..] == text;
    if |ls| == 1 {
      if !StartsWith(l, pat) && |l| > 0 {
        NoMatchInsideLastLine(l, pat, 1);
      }
    } else {
      var rest := JoinLines(ls[1..]);
      assert text == l + "\n" + rest;
      PrefixWithinLine(l, rest, pat);
      if !StartsWith(l, pat) {
        FirstMatchTail(l, rest, pat);
        MatchIffPrefixed(ls[1..], pat);
      }
    }
  }

  /** Replacing in a text of lines replaces the first line starting with the pattern. */
  lemma {:induction false} SpliceLines(ls: seq<string>, pat: string, line: string)
    requires |ls| >= 1
    requires forall i :: 0 <= i < |ls| ==> NoLineTerminator(ls[i])
    requires NoLineTerminator(pat)
    ensures Splice(JoinLines(ls), pat, line) == JoinLines(ReplaceFirst(ls, pat, line))
    decreases |ls|
  {
    var l := ls[0];
    if |ls| == 1 {
      SpliceSingle(l, pat, line);
    } else {
      var rest := JoinLines(ls[1..]);
      assert JoinLines(ls) == l + "\n" + rest;
      if StartsWith(l, pat) {
        SpliceHead(l, rest, pat, line);
        assert ReplaceFirst(ls, pat, line) == [line] + ls[1..];
        assert ([line] + ls[1..])[1..] == ls[1..];
      } else {
        SpliceTail(l, rest, pat, line);
        SpliceLines(ls[1..], pat, line);
        var rs := ReplaceFirst(ls, pat, line);
        assert rs == [l] + ReplaceFirst(ls[1..], pat, line);
        assert rs[1..] == ReplaceFirst(ls[1..], pat, line);
      }
    }
  }

  lemma {:induction false} LinesOfText(ls: seq<string>)
    requires |ls| >= 1
    requires forall i :: 0 <= i < |ls| ==> NoNewline(ls[i])
    requires OnlyNewlines(JoinLines(ls))
    ensures forall i :: 0 <= i < |ls| ==> NoLineTerminator(ls[i])
    decreases |ls|
  {
    var text := JoinLines(ls);
    assert forall j :: 0 <= j < |ls[0]| ==> text[j] == ls[0][j] by {
      if |ls| > 1 { assert text == ls[0] + "\n" + JoinLines(ls[1..]); }
    }
    if |ls| > 1 {
      var rest := JoinLines(ls[1..]);
      assert text == ls[0] + "\n" + rest;
      assert forall j :: 0 <= j < |rest| ==> rest[j] == text[|ls[0]| + 1 + j];
      LinesOfText(ls[1..]);
      assert forall i :: 1 <= i < |ls| ==> ls[i] == ls[1..][i - 1];
    }
  }

  lemma {:induction false} LeadingRunConcat(a: string, b: string, p: char -> bool)
    ensures LeadingRun(a + b, p) == if LeadingRun(a, p) < |a| then LeadingRun(a, p) else |a| + LeadingRun(b, p)
    decreases |a|
  {
    if a == [] {
      assert a + b == b;
    } else if p(a[0]) {
      assert (a + b)[1..] == a[1..] + b;
      LeadingRunConcat(a[1..], b, p);
    }
  }

  /** A line that starts with a key that is no comment is no comment. */
  lemma NotCommentExtended(key: string, rest: string)
    requires !IsComment(key)
    ensures !IsComment(key + "=" + rest)
  {
    LeadingRunConcat(key, "=" + rest, IsWhitespace);
    assert key + "=" + rest == key + ("=" + rest);
    LeadingRunConcat("=", rest, IsWhitespace);
  }

  /** Characters with a meaning in a regular expression pattern. */
  predicate IsRegexSyntax(c: char) {
    c in "\\^$.|?*+()[]{}"
  }

  /** A key that reads as itself in the pattern `write` builds from it: the
      only keys `Write` models. */
  predicate RegexLiteral(key: string) {
    forall i :: 0 <= i < |key| ==> !IsRegexSyntax(key[i])
  }

  /** Conditions on a key under which `write` and `read` agree on it: `read`
      neither splits it nor takes it for a comment or `__proto__`, and the
      replacement string `write` builds holds no `$` pattern. */
  predicate PlainKey(key: string) {
    && NoLineTerminator(key) && '=' !in key && '$' !in key
    && key != "__proto__" && !IsComment(key)
  }

  predicate PlainValue(value: string) {
    NoNewline(value) && '=' !in value && '$' !in value
  }

  /** With a key free of `=`, a kept line defines the key exactly when it
      starts with `key=`. */
  lemma DefinesIffPrefixed(line: string, key: string)
    requires PlainKey(key)
    ensures ('=' in line && LineKey(line) == key) <==> StartsWith(line, key + "=")
    ensures StartsWith(line, key + "=") ==> Kept(line)
  {
    if StartsWith(line, key + "=") {
      var rest := line[|key| + 1..];
      assert line == key + "=" + rest;
      BeforeSplit(key, '=', rest);
      NotCommentExtended(key, rest);
    }
    if '=' in line && LineKey(line) == key {
      assert line[..|key| + 1] == key + "=";
    }
  }

  /** A line defining `key` sets it to its value. */
  lemma ReadDefiningLine(m: map<string, string>, line: string, key: string)
    requires PlainKey(key) && StartsWith(line, key + "=")
    ensures '=' in line && ReadLine(m, line) == m[key := LineValue(line)]
  {
    DefinesIffPrefixed(line, key);
  }

  /** The line `write` produces sets `key` to `value`. */
  lemma ReadWrittenLine(m: map<string, string>, key: string, value: string)
    requires PlainKey(key) && PlainValue(value)
    ensures ReadLine(m, key + "=" + value) == m[key := value]
  {
    var kv := key + "=" + value;
    assert StartsWith(kv, key + "=");
    ReadDefiningLine(m, kv, key);
    BeforeSplit(key, '=', value);
    assert kv == key + ['='] + value;
    assert value + ['='] + "" == value + "=";
    BeforeSplit(value, '=', "");
    assert Before(value + "=", '=') == value;
    assert Before(value, '=') == value by {
      BeforeWithout(value, '=');
    }
  }

  lemma {:induction false} BeforeWithout(s: string, c: char)
    requires c !in s
    ensures Before(s, c) == s
    decreases |s|
  {
    if s != [] {
      BeforeWithout(s[1..], c);
    }
  }

  lemma {:induction false} ReadLinesUpdate(m: map<string, string>, lines: seq<string>, key: string, v: string)
    requires PlainKey(key)
    requires CountPrefixed(lines, key + "=") == 0
    ensures ReadLines(m[key := v], lines) == ReadLines(m, lines)[key := v]
    decreases |lines|
  {
    if lines != [] {
      var line := lines[0];
      DefinesIffPrefixed(line, key);
      if Kept(line) && LineKey(line) != "__proto__" {
        assert m[key := v][LineKey(line) := LineValue(line)] == m[LineKey(line) := LineValue(line)][key := v];
      }
      ReadLinesUpdate(ReadLine(m, line), lines[1..], key, v);
    }
  }

  /** Replacing the defining line at the head of the lines. */
  lemma ReadReplacedHead(m: map<string, string>, first: string, tail: seq<string>, key: string, value: string)
    requires PlainKey(key) && PlainValue(value)
    requires StartsWith(first, key + "=")
    requires CountPrefixed(tail, key + "=") == 0
    ensures ReadLines(ReadLine(m, key + "=" + value), tail) == ReadLines(ReadLine(m, first), tail)[key := value]
  {
    ReadWrittenLine(m, key, value);
    ReadDefiningLine(m, first, key);
    var old_ := m[key := LineValue(first)];
    assert old_[key := value] == m[key := value];
    ReadLinesUpdate(old_, tail, key, value);
  }

  lemma {:induction false} ReadReplaced(m: map<string, string>, lines: seq<string>, key: string, value: string)
    requires PlainKey(key) && PlainValue(value)
    requires CountPrefixed(lines, key + "=") == 1
    ensures ReadLines(m, ReplaceFirst(lines, key + "=", key + "=" + value)) == ReadLines(m, lines)[key := value]
    decreases |lines|
  {
    var pat, kv := key + "=", key + "=" + value;
    if StartsWith(lines[0], pat) {
      var rs := ReplaceFirst(lines, pat, kv);
      assert rs[0] == kv && rs[1..] == lines[1..];
      ReadReplacedHead(m, lines[0], lines[1..], key, value);
    } else {
      var rs := ReplaceFirst(lines, pat, kv);
      assert rs[0] == lines[0] && rs[1..] == ReplaceFirst(lines[1..], pat, kv);
      ReadReplaced(ReadLine(m, lines[0]), lines[1..], key, value);
    }
  }

  lemma {:induction false} ReplacedLinesNoNewline(ls: seq<string>, pat: string, line: string)
    requires forall i :: 0 <= i < |ls| ==> NoNewline(ls[i])
    requires NoNewline(line)
    ensures forall i :: 0 <= i < |ls| ==> NoNewline(ReplaceFirst(ls, pat, line)[i])
    decreases |ls|
  {
    if ls != [] && !StartsWith(ls[0], pat) {
      ReplacedLinesNoNewline(ls[1..], pat, line);
      assert forall i :: 1 <= i < |ls| ==> ReplaceFirst(ls, pat, line)[i] == ReplaceFirst(ls[1..], pat, line)[i - 1];
    }
  }

  lemma PlainPattern(key: string, value: string)
    requires PlainKey(key) && PlainValue(value)
    ensures NoLineTerminator(key + "=")
    ensures NoNewline(key + "=" + value) && '$' !in key + "=" + value
  {
    var kv := key + "=" + value;
    assert forall i :: 0 <= i < |key| ==> (key + "=")[i] == key[i];
    assert forall i :: 0 <= i < |kv| ==> kv[i] == if i < |key| then key[i] else if i == |key| then '=' else value[i - |key| - 1];
  }

  /** The round trip: when exactly one line starts with `key=` and neither the
      key nor the value holds a character `read` or `write` treats specially,
      after `write` the file reads as before with `key` now set to `value`. */
  lemma ReadAfterWrite(text: string, key: string, value: string)
    requires OnlyNewlines(text)
    requires RegexLiteral(key) && PlainKey(key) && PlainValue(value)
    requires CountPrefixed(Split(text, IsNewline), key + "=") == 1
    ensures Parse(Write(text, key, value)) == Parse(text)[key := value]
  {
    var ls := Split(text, IsNewline);
    var pat, kv := key + "=", key + "=" + value;
    JoinSplit(text);
    LinesOfText(ls);
    PlainPattern(key, value);
    SpliceLines(ls, pat, kv);
    ReplacedLinesNoNewline(ls, pat, kv);
    SplitJoin(ReplaceFirst(ls, pat, kv));
    ReadReplaced(map[], ls, key, value);
  }

  /** Line `k` is the first line starting with `pat`. */
  predicate FirstPrefixed(lines: seq<string>, pat: string, k: nat) {
    k < |lines| && StartsWith(lines[k], pat) && forall i :: 0 <= i < k ==> !StartsWith(lines[i], pat)
  }

  /** With no line starting with `pat`, `ReplaceFirst` changes nothing. */
  lemma {:induction false} ReplaceFirstNone(lines: seq<string>, pat: string, line: string)
    requires forall i :: 0 <= i < |lines| ==> !StartsWith(lines[i], pat)
    ensures ReplaceFirst(lines, pat, line) == lines
    decreases |lines|
  {
    if lines != [] {
      assert forall i :: 0 <= i < |lines| - 1 ==> lines[1..][i] == lines[i + 1];
      ReplaceFirstNone(lines[1..], pat, line);
    }
  }

  /** `ReplaceFirst` changes the first line starting with `pat` and keeps the others. */
  lemma {:induction false} ReplaceFirstAt(lines: seq<string>, pat: string, line: string, k: nat)
    requires FirstPrefixed(lines, pat, k)
    ensures ReplaceFirst(lines, pat, line) == lines[..k] + [line] + lines[k + 1..]
    decreases k
  {
    if k > 0 {
      var tail := lines[1..];
      assert !StartsWith(lines[0], pat);
      assert FirstPrefixed(tail, pat, k - 1) by {
        assert tail[k - 1] == lines[k];
        forall i | 0 <= i < k - 1 ensures !StartsWith(tail[i], pat) {
          assert tail[i] == lines[i + 1];
        }
      }
      ReplaceFirstAt(tail, pat, line, k - 1);
      assert lines[..k] == [lines[0]] + tail[..k - 1];
      assert lines[k + 1..] == tail[k..];
    }
  }

  /** On a text whose lines end in "\n", `write` with a value free of "\n"
      and `$` rewrites exactly the first line starting with `key=` to
      `key=value` and keeps every other line. */
  lemma WriteReplacesFirstLine(text: string, key: string, value: string)
    requires OnlyNewlines(text)
    requires RegexLiteral(key) && PlainKey(key)
    requires NoNewline(value) && '$' !in value
    ensures Write(text, key, value) == JoinLines(ReplaceFirst(Split(text, IsNewline), key + "=", key + "=" + value))
  {
    var ls := Split(text, IsNewline);
    var pat, kv := key + "=", key + "=" + value;
    JoinSplit(text);
    LinesOfText(ls);
    assert NoLineTerminator(pat) by {
      assert forall i :: 0 <= i < |key| ==> pat[i] == key[i];
    }
    assert '$' !in kv by {
      assert forall i :: 0 <= i < |kv| ==> kv[i] == if i < |key| then key[i] else if i == |key| then '=' else value[i - |key| - 1];
    }
    SpliceLines(ls, pat, kv);
  }

  /** With no line starting with `key=`, `write` leaves the text as it is. */
  lemma WriteWithoutLine(text: string, key: string, value: string)
    requires OnlyNewlines(text)
    requires RegexLiteral(key) && PlainKey(key)
    ensures CountPrefixed(Split(text, IsNewline), key + "=") == 0 ==> Write(text, key, value) == text
  {
    var ls := Split(text, IsNewline);
    JoinSplit(text);
    LinesOfText(ls);
    assert NoLineTerminator(key + "=") by {
      assert forall i :: 0 <= i < |key| ==> (key + "=")[i] == key[i];
    }
    MatchIffPrefixed(ls, key + "=");
  }

  // ---------------------------------------------------------------------------
  // The enumerated settings

  const Difficulty: seq<(string, nat)> := [("Easy", 0), ("Normal", 1), ("Hard", 2), ("VeryHard", 3)]
  const GameMode: seq<(string, nat)> := [("NormalWorld", 1), ("CreativeWorld_Build", 2), ("CreativeWorld_Play", 3)]

  /** `enumKeys`: the keys of `enumValuesMap`, in declaration order. */
  const EnumKeys: seq<string> := ["difficulty", "gameMode"]

  /** `enumValuesMap[key]`, for the map's own keys. */
  function Table(key: string): Option<seq<(string, nat)>> {
    if key == "difficulty" then Some(Difficulty)
    else if key == "gameMode" then Some(GameMode)
    else None
  }

  /** `values[name]`. */
  function ValueOf(table: seq<(string, nat)>, name: string): Option<nat> {
    if table == [] then None
    else if table[0].0 == name then Some(table[0].1)
    else ValueOf(table[1..], name)
  }

  /** `Object.keys(values).find((k) => values[k] === value)`. */
  function NameOf(table: seq<(string, nat)>, value: int): Option<string> {
    if table == [] then None
    else if table[0].1 == value then Some(table[0].0)
    else NameOf(table[1..], value)
  }

  function Names(table: seq<(string, nat)>): (r: seq<string>)
    ensures |r| == |table|
    ensures forall i :: 0 <= i < |table| ==> r[i] == table[i].0
  {
    if table == [] then [] else [table[0].0] + Names(table[1..])
  }

  predicate Injective(table: seq<(string, nat)>) {
    forall i, j :: 0 <= i < j < |table| ==> table[i].0 != table[j].0 && table[i].1 != table[j].1
  }

  lemma {:induction false} ValueOfAvoids(table: seq<(string, nat)>, v: int)
    requires forall i :: 0 <= i < |table| ==> table[i].1 != v
    ensures forall name :: ValueOf(table, name) != Some(v)
    decreases |table|
  {
    if table != [] {
      ValueOfAvoids(table[1..], v);
    }
  }

  lemma {:induction false} NameOfAvoids(table: seq<(string, nat)>, name: string)
    requires forall i :: 0 <= i < |table| ==> table[i].0 != name
    ensures forall v :: NameOf(table, v) != Some(name)
    decreases |table|
  {
    if table != [] {
      NameOfAvoids(table[1..], name);
    }
  }

  /** In a table with distinct names and distinct values, looking up a name's
      value and finding the name of a value are inverse. */
  lemma {:induction false} NameOfInverts(table: seq<(string, nat)>, name: string, value: int)
    requires Injective(table)
    ensures NameOf(table, value) == Some(name) <==> ValueOf(table, name) == Some(value)
    decreases |table|
  {
    if table != [] {
      var tail := table[1..];
      assert forall i :: 0 <= i < |tail| ==> tail[i] == table[i + 1];
      ValueOfAvoids(tail, table[0].1);
      NameOfAvoids(tail, table[0].0);
      NameOfInverts(tail, name, value);
    }
  }

  lemma {:induction false} NamesAreKeys(table: seq<(string, nat)>)
    ensures forall name :: name in Names(table) <==> ValueOf(table, name).Some?
    decreases |table|
  {
    if table != [] {
      NamesAreKeys(table[1..]);
    }
  }

  /** The properties every plain object inherits from `Object.prototype`;
      looking one of them up in `enumValuesMap` finds a function or, for
      `__proto__`, `Object.prototype` itself, none of which has own
      enumerable keys. */
  const InheritedNames: seq<string> := [
    "constructor", "hasOwnProperty", "isPrototypeOf", "propertyIsEnumerable",
    "toLocaleString", "toString", "valueOf", "__proto__",
    "__defineGetter__", "__defineSetter__", "__lookupGetter__", "__lookupSetter__"]

  /** `possibleEnumValues`: the names of a table, in order; no names for an
      inherited property; `None` where `Object.keys(undefined)` throws. */
  function PossibleEnumValues(key: string): (r: Option<seq<string>>)
    ensures r.Some? <==> IsEnumKey(key) || key in InheritedNames
    ensures IsEnumKey(key) ==> r.Some? && forall name :: name in r.value <==> ValueOf(Table(key).value, name).Some?
    ensures !IsEnumKey(key) && key in InheritedNames ==> r == Some([])
  {
    match Table(key)
    case Some(t) =>
      NamesAreKeys(t);
      Some(Names(t))
    case None => if key in InheritedNames then Some([]) else None
  }

  /** `getEnumValue`: the name with this value, or nothing for an unknown key
      or value. */
  function GetEnumValue(key: string, value: int): Option<string> {
    match Table(key)
    case None => None
    case Some(t) => NameOf(t, value)
  }

  /** `isEnumKey`. */
  predicate IsEnumKey(key: string) {
    key in EnumKeys
  }

  /** `canSetEnum`: `enumValuesMap[key]?.[value] != null`. */
  predicate CanSetEnum(key: string, value: string) {
    Table(key).Some? && ValueOf(Table(key).value, value).Some?
  }

  /** The enum keys are exactly the two tables; `getEnumValue` inverts them
      (it finds a name exactly when that name has that value); a name can be
      set exactly when it is among the possible values. */
  lemma EnumTables(key: string, name: string, value: int)
    ensures IsEnumKey(key) <==> key == "difficulty" || key == "gameMode"
    ensures IsEnumKey(key) <==> Table(key).Some?
    ensures GetEnumValue(key, value) == Some(name) <==> Table(key).Some? && ValueOf(Table(key).value, name) == Some(value)
    ensures CanSetEnum(key, name) <==> IsEnumKey(key) && name in PossibleEnumValues(key).value
  {
    if key == "difficulty" {
      assert Injective(Difficulty);
      NameOfInverts(Difficulty, name, value);
    } else if key == "gameMode" {
      assert Injective(GameMode);
      NameOfInverts(GameMode, name, value);
    }
  }

  /** `setEnum`: writes the named value, whatever `key` was given, under
      `difficulty`; a name the table does not hold changes nothing. */
  function SetEnum(text: string, key: string, value: string): (r: string)
    ensures !CanSetEnum(key, value) ==> r == text
  {
    if CanSetEnum(key, value) then
      Write(text, "difficulty", NatToString(ValueOf(Table(key).value, value).value))
    else text
  }

  /** `setEnum(gameMode, ...)` leaves the game mode as it was read and sets
      the difficulty instead. */
  lemma SetGameModeKeepsGameMode(text: string)
    requires OnlyNewlines(text)
    requires CountPrefixed(Split(text, IsNewline), "difficulty=") == 1
    ensures Parse(SetEnum(text, "gameMode", "CreativeWorld_Play")) == Parse(text)["difficulty" := "3"]
    ensures ("gameMode" in Parse(text)) == ("gameMode" in Parse(SetEnum(text, "gameMode", "CreativeWorld_Play")))
    ensures "gameMode" in Parse(text) ==>
      Parse(SetEnum(text, "gameMode", "CreativeWorld_Play"))["gameMode"] == Parse(text)["gameMode"]
  {
    assert ValueOf(GameMode, "CreativeWorld_Play") == Some(3);
    assert NatToString(3) == "3";
    ReadAfterSetEnum(text, "gameMode", "CreativeWorld_Play");
  }

  /** `setEnum` as its signature intends: the named value written under the
      key it was given. */
  function SetEnumUnderKey(text: string, key: string, value: string): (r: string)
    ensures !CanSetEnum(key, value) ==> r == text
  {
    if CanSetEnum(key, value) then
      Write(text, key, NatToString(ValueOf(Table(key).value, value).value))
    else text
  }

  /** After the intended `setEnum`, the file reads as before with `key` set to
      the name's number. */
  lemma ReadAfterSetEnumUnderKey(text: string, key: string, name: string)
    requires OnlyNewlines(text)
    requires CountPrefixed(Split(text, IsNewline), key + "=") == 1
    requires CanSetEnum(key, name)
    ensures Parse(SetEnumUnderKey(text, key, name)) ==
      Parse(text)[key := NatToString(ValueOf(Table(key).value, name).value)]
  {
    var digits := NatToString(ValueOf(Table(key).value, name).value);
    assert PlainValue(digits);
    if key == "difficulty" {
      DifficultyPlain();
    } else {
      LetterKeyPlain("gameMode");
    }
    ReadAfterWrite(text, key, digits);
  }

  /** `setName`: `write` under `name`. */
  function SetName(text: string, name: string): (r: string)
    ensures FirstMatch(text, "name=", 0).None? ==> r == text
    ensures '$' !in name ==> r == Splice(text, "name=", "name=" + name)
  {
    assert "name" + "=" == "name=";
    Write(text, "name", name)
  }

  predicate IsLetter(c: char) {
    ('a' <= c <= 'z') || ('A' <= c <= 'Z')
  }

  /** A key made of letters is one `write` and `read` agree on. */
  lemma LetterKeyPlain(key: string)
    requires |key| > 0 && forall i :: 0 <= i < |key| ==> IsLetter(key[i])
    ensures RegexLiteral(key) && PlainKey(key)
  {
    assert key != "__proto__" by { assert "__proto__"[0] == '_'; }
    assert LeadingRun(key, IsWhitespace) == 0;
  }

  lemma DifficultyPlain()
    ensures RegexLiteral("difficulty") && PlainKey("difficulty") && "difficulty" + "=" == "difficulty="
  {
    LetterKeyPlain("difficulty");
  }

  lemma NamePlain()
    ensures RegexLiteral("name") && PlainKey("name") && "name" + "=" == "name="
  {
    LetterKeyPlain("name");
  }

  /** After `setEnum` with a name its table holds, the file reads as before
      with `difficulty` set to that name's number, even for `gameMode`. */
  lemma ReadAfterSetEnum(text: string, key: string, name: string)
    requires OnlyNewlines(text)
    requires CountPrefixed(Split(text, IsNewline), "difficulty=") == 1
    requires CanSetEnum(key, name)
    ensures Parse(SetEnum(text, key, name)) ==
      Parse(text)["difficulty" := NatToString(ValueOf(Table(key).value, name).value)]
  {
    var digits := NatToString(ValueOf(Table(key).value, name).value);
    assert PlainValue(digits);
    DifficultyPlain();
    ReadAfterWrite(text, "difficulty", digits);
  }

  /** The game mode goes to the `difficulty` line. */
  lemma SetGameModeWritesDifficulty(text: string)
    ensures SetEnum(text, "gameMode", "CreativeWorld_Play") == Write(text, "difficulty", "3")
  {
    assert ValueOf(GameMode, "CreativeWorld_Play") == Some(3);
  }

  /** After `setName`, the file reads as before with `name` set. */
  lemma ReadAfterSetName(text: string, name: string)
    requires OnlyNewlines(text)
    requires CountPrefixed(Split(text, IsNewline), "name=") == 1
    requires PlainValue(name)
    ensures Parse(SetName(text, name)) == Parse(text)["name" := name]
  {
    NamePlain();
    ReadAfterWrite(text, "name", name);
  }
}
