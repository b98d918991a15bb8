/**
 * The markers the supervisor looks for in the dedicated server's output,
 * and the classification of one output chunk into at most one outcome.
 */
module Classifier {
  import opened Options
  import opened Text

  /** Printed by the server after it has been told to `quit`. */
  const QuitPromptMarker: string := "type 'yes' to quit"
  /** Printed by the server once its world is ready. */
  const WorldLoadedMarker: string := "World is loaded!"
  const PresencePrefix: string := "ActiveSlave:Id="
  const ActiveTrue: string := " Active=True Name="
  const ActiveFalse: string := " Active=False Name="

  /** One player-presence record: `Active=True` is a join, `Active=False` a leave. */
  datatype Presence = Presence(id: string, active: bool, name: string)

  /** The line the server prints for a presence record. */
  function PresenceLine(p: Presence): (line: string) {
    PresencePrefix + p.id + (if p.active then ActiveTrue else ActiveFalse) + p.name
  }

  /** What `(\w+)` and `(.*)` can capture: a non-empty run of word characters
      for the id, and a name free of line terminators. */
  predicate WellFormed(p: Presence) {
    && |p.id| > 0
    && (forall i :: 0 <= i < |p.id| ==> IsWordChar(p.id[i]))
    && NoLineTerminator(p.name)
  }

  /** ` Active=(True|False) Name=(.*)` at the start of `tail`: the flag and
      the rest of the line. */
  function MatchFlag(tail: string): (r: Option<(bool, string)>)
    ensures r.Some? ==> tail == (if r.value.0 then ActiveTrue else ActiveFalse) + r.value.1
  {
    if StartsWith(tail, ActiveTrue) then Some((true, tail[|ActiveTrue|..]))
    else if StartsWith(tail, ActiveFalse) then Some((false, tail[|ActiveFalse|..]))
    else None
  }

  lemma MatchFlagOf(active: bool, name: string)
    ensures MatchFlag((if active then ActiveTrue else ActiveFalse) + name) == Some((active, name))
  {
    var flag := if active then ActiveTrue else ActiveFalse;
    var tail := flag + name;
    assert tail[..|flag|] == flag && tail[|flag|..] == name;
    if !active {
      assert tail[8] == 'F';
    }
  }

  /**
   * `^ActiveSlave:Id=(\w+) Active=(True|False) Name=(.*)` matched at the start
   * of one line (text holding no line terminator). `\w+` is followed by a
   * space, which is not a word character, so the id is the whole leading run
   * of word characters; `(.*)` takes the rest of the line.
   */
  function MatchPresence(line: string): (r: Option<Presence>)
    requires NoLineTerminator(line)
    ensures r.Some? ==> WellFormed(r.value) && PresenceLine(r.value) == line
  {
    if !StartsWith(line, PresencePrefix) then None
    else
      var rest := line[|PresencePrefix|..];
      var n := LeadingRun(rest, IsWordChar);
      if n == 0 then None
      else
        match MatchFlag(rest[n..])
        case None => None
        case Some((active, name)) =>
          MatchedFields(line, rest, n, active, name);
          Some(Presence(rest[..n], active, name))
  }

  /** The fields `MatchPresence` cuts out of a line form a record printed as that line. */
  lemma MatchedFields(line: string, rest: string, n: nat, active: bool, name: string)
    requires NoLineTerminator(line) && StartsWith(line, PresencePrefix) && rest == line[|PresencePrefix|..]
    requires 0 < n <= |rest| && forall i :: 0 <= i < n ==> IsWordChar(rest[i])
    requires rest[n..] == (if active then ActiveTrue else ActiveFalse) + name
    ensures WellFormed(Presence(rest[..n], active, name))
    ensures PresenceLine(Presence(rest[..n], active, name)) == line
  {
    var flag := if active then ActiveTrue else ActiveFalse;
    assert line == PresencePrefix + rest[..n] + (flag + name);
    var k := |line| - |name|;
    assert forall i :: 0 <= i < |name| ==> name[i] == line[k + i];
  }

  /** Every record the server can print is recognised, with its own fields. */
  lemma PresenceRoundTrip(p: Presence)
    requires WellFormed(p)
    ensures NoLineTerminator(PresenceLine(p))
    ensures MatchPresence(PresenceLine(p)) == Some(p)
  {
    var flag := if p.active then ActiveTrue else ActiveFalse;
    PresenceLineNoTerminator(p.id, flag, p.name);
    var line := PresenceLine(p);
    var tail := flag + p.name;
    assert line == PresencePrefix + (p.id + tail);
    assert line[..|PresencePrefix|] == PresencePrefix;
    var rest := line[|PresencePrefix|..];
    assert rest == p.id + tail;
    assert tail[0] == ' ';
    LeadingRunOfWord(p.id, tail);
    assert rest[..|p.id|] == p.id && rest[|p.id|..] == tail;
    MatchFlagOf(p.active, p.name);
  }

  lemma PresenceLineNoTerminator(id: string, flag: string, name: string)
    requires forall i :: 0 <= i < |id| ==> IsWordChar(id[i])
    requires flag == ActiveTrue || flag == ActiveFalse
    requires NoLineTerminator(name)
    ensures NoLineTerminator(PresencePrefix + id + flag + name)
  {
    var line := PresencePrefix + id + flag + name;
    forall i | 0 <= i < |line| ensures !IsLineTerminator(line[i]) {
      if i < |PresencePrefix| {
        assert line[i] == PresencePrefix[i];
      } else if i < |PresencePrefix| + |id| {
        assert line[i] == id[i - |PresencePrefix|];
      } else if i < |PresencePrefix| + |id| + |flag| {
        assert line[i] == flag[i - |PresencePrefix| - |id|];
      } else {
        assert line[i] == name[i - |PresencePrefix| - |id| - |flag|];
      }
    }
  }

  lemma {:induction false} LeadingRunOfWord(id: string, tail: string)
    requires forall i :: 0 <= i < |id| ==> IsWordChar(id[i])
    requires |tail| > 0 && !IsWordChar(tail[0])
    ensures LeadingRun(id + tail, IsWordChar) == |id|
    decreases |id|
  {
    if id != [] {
      assert (id + tail)[1..] == id[1..] + tail;
      LeadingRunOfWord(id[1..], tail);
    }
  }

  /** The index of the first line holding a presence record (`|lines|` if none does). */
  function FirstPresenceIndex(lines: seq<string>): (k: nat)
    requires forall i :: 0 <= i < |lines| ==> NoLineTerminator(lines[i])
    ensures k <= |lines|
    ensures forall j :: 0 <= j < k ==> MatchPresence(lines[j]).None?
    ensures k < |lines| ==> MatchPresence(lines[k]).Some?
  {
    if lines == [] then 0
    else if MatchPresence(lines[0]).Some? then 0
    else
      var k := FirstPresenceIndex(lines[1..]);
      assert forall i :: 1 <= i < |lines| ==> lines[i] == lines[1..][i - 1];
      1 + k
  }

  /** The record on the first line (in order) holding one. */
  function FirstPresence(lines: seq<string>): (r: Option<Presence>)
    requires forall i :: 0 <= i < |lines| ==> NoLineTerminator(lines[i])
    ensures r.None? <==> forall i :: 0 <= i < |lines| ==> MatchPresence(lines[i]).None?
    ensures r.Some? ==> exists k :: (0 <= k < |lines| && r == MatchPresence(lines[k])
                                     && forall j :: 0 <= j < k ==> MatchPresence(lines[j]).None?)
  {
    var k := FirstPresenceIndex(lines);
    if k < |lines| then MatchPresence(lines[k]) else None
  }

  /** The lines the multiline anchor `^` starts: the chunk cut at every line terminator. */
  function RegexLines(message: string): (lines: seq<string>)
    ensures forall i :: 0 <= i < |lines| ==> NoLineTerminator(lines[i])
  {
    Split(message, IsLineTerminator)
  }

  /** `activeSlaveRe.exec(message)`: the `m` flag lets `^` match at the start of
      any line, and the match leftmost in the chunk is on the first line that
      holds a record. */
  function FindPresence(message: string): (r: Option<Presence>)
    ensures r.None? <==> forall i :: 0 <= i < |RegexLines(message)| ==> MatchPresence(RegexLines(message)[i]).None?
    ensures r.Some? ==> WellFormed(r.value) && exists k :: (0 <= k < |RegexLines(message)|
                          && PresenceLine(r.value) == RegexLines(message)[k]
                          && forall j :: 0 <= j < k ==> MatchPresence(RegexLines(message)[j]).None?)
  {
    FirstPresence(RegexLines(message))
  }

  /** The outcome of one output chunk, tried in the source's order. */
  datatype Outcome =
    | QuitPrompt
    | WorldLoaded
    | Joined(id: string, name: string)
    | Left(id: string, name: string)
    | Unrecognised

  /**
   * `handleMessage`'s branch chain. The marker tests look only at the start of
   * the whole chunk; the presence pattern looks at every line of it.
   */
  function Classify(promptPending: bool, message: string): (o: Outcome)
    ensures o.QuitPrompt? <==> promptPending && StartsWith(message, QuitPromptMarker)
    ensures o.WorldLoaded? <==> StartsWith(message, WorldLoadedMarker)
    ensures o.Joined? <==>
      !o.QuitPrompt? && !o.WorldLoaded? && FindPresence(message).Some? && FindPresence(message).value.active
    ensures o.Left? <==>
      !o.QuitPrompt? && !o.WorldLoaded? && FindPresence(message).Some? && !FindPresence(message).value.active
    ensures (o.Joined? || o.Left?) ==>
      FindPresence(message) == Some(Presence(o.id, o.Joined?, o.name))
  {
    MarkersExclusive(message);
    if promptPending && StartsWith(message, QuitPromptMarker) then QuitPrompt
    else if StartsWith(message, WorldLoadedMarker) then WorldLoaded
    else match FindPresence(message)
      case Some(p) => if p.active then Joined(p.id, p.name) else Left(p.id, p.name)
      case None => Unrecognised
  }

  /** No chunk starts with both markers, so their order in the chain only matters
      through the pending-waiter condition. */
  lemma MarkersExclusive(message: string)
    ensures !(StartsWith(message, QuitPromptMarker) && StartsWith(message, WorldLoadedMarker))
  {
    if StartsWith(message, QuitPromptMarker) {
      assert message[0] == 't';
    }
  }

  /** A chunk that is exactly one record is classified as that record's join or leave. */
  lemma ClassifyPresenceLine(promptPending: bool, p: Presence)
    requires WellFormed(p)
    ensures Classify(promptPending, PresenceLine(p)) ==
      if p.active then Joined(p.id, p.name) else Left(p.id, p.name)
  {
    var line := PresenceLine(p);
    PresenceRoundTrip(p);
    SplitNoTerminator(line);
    assert RegexLines(line) == [line];
    assert !StartsWith(line, QuitPromptMarker) by { assert line[0] == 'A'; }
    assert !StartsWith(line, WorldLoadedMarker) by { assert line[0] == 'A'; }
  }

  lemma {:induction false} SplitNoTerminator(l: string)
    requires NoLineTerminator(l)
    ensures Split(l, IsLineTerminator) == [l]
    decreases |l|
  {
    if l != [] {
      SplitNoTerminator(l[1..]);
      assert [l[0]] + l[1..] == l;
    }
  }
}
