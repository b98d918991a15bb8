/**
 * The chat bot that drives the supervisor: it reads commands from messages
 * that mention it, answers the ones it refuses, and posts the supervisor's
 * events and the list of players to its channel. The chat service itself is
 * outside the model: incoming messages are parameters and outgoing messages
 * are appended to `posts`.
 */
module ChatBot {
  import opened Options
  import opened Text
  import opened ServerManager
  import opened Classifier

  // ---------------------------------------------------------------------------
  // The command in a message: `content.replace(/^.*?>\s*/, "")`

  /** A character `.` matches, other than `>`. */
  predicate MentionChar(c: char) {
    c != '>' && !IsLineTerminator(c)
  }

  /** The `>` that closes the leading mention: the first `>`, provided no line
      terminator comes before it. */
  function MentionEnd(content: string): (r: Option<nat>)
    ensures r.Some? ==> r.value < |content| && content[r.value] == '>'
    ensures r.Some? ==> forall i :: 0 <= i < r.value ==> MentionChar(content[i])
    ensures r.None? ==> forall i :: 0 <= i < |content| && content[i] == '>' ==>
      exists j :: 0 <= j < i && IsLineTerminator(content[j])
  {
    var n := LeadingRun(content, MentionChar);
    if n < |content| && content[n] == '>' then Some(n)
    else
      assert forall i :: 0 <= i < |content| && content[i] == '>' ==> n < i && IsLineTerminator(content[n]);
      None
  }

  /** The message with its leading mention and the white space after it
      removed; a message with no such mention is kept whole. */
  function CommandBody(content: string): (body: string)
    ensures |body| <= |content| && body == content[|content| - |body|..]
    ensures MentionEnd(content).None? ==> body == content
    ensures MentionEnd(content).Some? ==>
      && |body| < |content| - MentionEnd(content).value
      && (forall i :: MentionEnd(content).value < i < |content| - |body| ==> IsWhitespace(content[i]))
      && (body != [] ==> !IsWhitespace(body[0]))
  {
    match MentionEnd(content)
    case None => content
    case Some(n) =>
      var rest := content[n + 1..];
      var k := LeadingRun(rest, IsWhitespace);
      assert forall i :: n < i < n + 1 + k ==> content[i] == rest[i - n - 1];
      rest[k..]
  }

  /** A message of the usual shape, a mention, white space and a command,
      yields the command. */
  lemma {:induction false} CommandBodyOfMention(mention: string, space: string, command: string)
    requires forall i :: 0 <= i < |mention| ==> MentionChar(mention[i])
    requires forall i :: 0 <= i < |space| ==> IsWhitespace(space[i])
    requires command == [] || !IsWhitespace(command[0])
    ensures CommandBody(mention + ">" + space + command) == command
  {
    var content := mention + ">" + space + command;
    LeadingRunAll(mention, ">" + space + command, MentionChar);
    assert content == mention + (">" + space + command);
    assert content[|mention|] == '>';
    assert MentionEnd(content) == Some(|mention|);
    assert content[|mention| + 1..] == space + command;
    LeadingRunAll(space, command, IsWhitespace);
    assert LeadingRun(command, IsWhitespace) == 0;
  }

  /** A run that covers all of `a` and stops at `b`'s first character. */
  lemma {:induction false} LeadingRunAll(a: string, b: string, p: char -> bool)
    requires forall i :: 0 <= i < |a| ==> p(a[i])
    ensures LeadingRun(a + b, p) == |a| + LeadingRun(b, p)
    decreases |a|
  {
    if a == [] {
      assert a + b == b;
    } else {
      assert (a + b)[1..] == a[1..] + b;
      LeadingRunAll(a[1..], b, p);
    }
  }

  // ---------------------------------------------------------------------------
  // What a command does

  datatype Action = NoAction | InvokeStart | InvokeRestart | InvokeStop

  /** The supervisor operation a command invokes and the reply it posts. */
  datatype Response = Response(action: Action, reply: Option<string>)

  const HelpText: string := "start, stop, restart"

  function Refusal(verb: string, st: State): (r: string) {
    "Cannot " + verb + "! Server is " + StateName(st)
  }

  /** The command handler for a message that mentions the bot: `help` answers
      with the command list; `start`, `restart` and `stop` invoke the operation
      when its guard allows it and otherwise say why not; anything else is
      ignored. */
  function Dispatch(body: string, st: State): (r: Response)
    ensures r.action == InvokeStart <==> body == "start" && CanStart(st)
    ensures r.action == InvokeRestart <==> body == "restart" && CanRestart(st)
    ensures r.action == InvokeStop <==> body == "stop" && CanStop(st)
    ensures r.action != NoAction ==> r.reply.None?
    ensures r.reply == Some(HelpText) <==> body == "help"
    ensures body == "start" && !CanStart(st) <==> r.reply == Some(Refusal("start", st))
    ensures body == "restart" && !CanRestart(st) <==> r.reply == Some(Refusal("restart", st))
    ensures body == "stop" && !CanStop(st) <==> r.reply == Some(Refusal("stop", st))
    ensures body !in ["help", "start", "restart", "stop"] ==> r == Response(NoAction, None)
  {
    if body == "help" then Response(NoAction, Some(HelpText))
    else if body == "start" then
      if CanStart(st) then Response(InvokeStart, None) else Response(NoAction, Some(Refusal("start", st)))
    else if body == "restart" then
      if CanRestart(st) then Response(InvokeRestart, None) else Response(NoAction, Some(Refusal("restart", st)))
    else if body == "stop" then
      if CanStop(st) then Response(InvokeStop, None) else Response(NoAction, Some(Refusal("stop", st)))
    else Response(NoAction, None)
  }

  /** `messageCreate`: only messages that mention the bot are commands. */
  function Command(mentioned: seq<nat>, botId: nat, content: string, st: State): (r: Response)
    ensures botId !in mentioned ==> r == Response(NoAction, None)
    ensures r.action != NoAction ==> botId in mentioned && CommandBody(content) in ["start", "restart", "stop"]
  {
    if botId in mentioned then Dispatch(CommandBody(content), st) else Response(NoAction, None)
  }

  /** Only messages that mention the bot are commands, and a mention is
      dispatched on the body `CommandBody` leaves, whatever the content. */
  lemma MentionGate(mentioned: seq<nat>, botId: nat, content: string, st: State)
    ensures botId !in mentioned ==> Command(mentioned, botId, content, st) == Response(NoAction, None)
    ensures botId in mentioned ==> Command(mentioned, botId, content, st) == Dispatch(CommandBody(content), st)
    ensures botId in mentioned && MentionEnd(content).None? ==> Command(mentioned, botId, content, st) == Dispatch(content, st)
  {
  }

  /** A mention of the bot of the usual shape, a mention, white space and a
      command, is dispatched on that command. */
  lemma MentionedCommand(mentioned: seq<nat>, botId: nat, mention: string, space: string, command: string, st: State)
    requires botId in mentioned
    requires forall i :: 0 <= i < |mention| ==> MentionChar(mention[i])
    requires forall i :: 0 <= i < |space| ==> IsWhitespace(space[i])
    requires command == [] || !IsWhitespace(command[0])
    ensures Command(mentioned, botId, mention + ">" + space + command, st) == Dispatch(command, st)
  {
    CommandBodyOfMention(mention, space, command);
  }

  /** The supervisor operation an action invokes. */
  function Perform(s: Snapshot, a: Action): (r: Snapshot)
    ensures Inv(s) ==> Inv(r)
    ensures s.events <= r.events
  {
    match a
    case NoAction => s
    case InvokeStart => StartStep(s)
    case InvokeRestart => StopStep(s, ByRestart)
    case InvokeStop => StopStep(s, Direct)
  }

  /** A refusal or a help text never coincides with any action; an invoked
      operation always takes effect: starting, restarting and stopping each
      report their first event. */
  lemma CommandTakesEffect(s: Snapshot, body: string)
    requires Inv(s)
    ensures var r := Dispatch(body, s.state);
      && (r.action == InvokeStart ==> Perform(s, r.action).events == s.events + [OnStart])
      && (r.action in {InvokeRestart, InvokeStop} ==>
            Perform(s, r.action).events == s.events + [OnStop] && Perform(s, r.action).state == Stopping)
      && (r.action == NoAction ==> Perform(s, r.action) == s)
  {
  }

  // ---------------------------------------------------------------------------
  // The roster: `usernamesMap` and the order `Object.keys` lists it in

  predicate AllDigits(k: string) {
    forall i :: 0 <= i < |k| ==> IsDigit(k[i])
  }

  /** The number a key of digits denotes (0 for any other key). */
  function KeyValue(k: string): nat {
    if AllDigits(k) then DecimalValue(k) else 0
  }

  /** A canonical array index: the decimal form of a number below 2^32 - 1. */
  predicate IsArrayIndex(k: string) {
    |k| >= 1 && AllDigits(k) && NatToString(KeyValue(k)) == k && KeyValue(k) < 0xFFFF_FFFF
  }

  predicate AllIndices(keys: seq<string>) {
    forall i :: 0 <= i < |keys| ==> IsArrayIndex(keys[i])
  }

  predicate Ascending(keys: seq<string>) {
    forall i, j :: 0 <= i < j < |keys| ==> KeyValue(keys[i]) <= KeyValue(keys[j])
  }

  /** A key no greater than any of an ascending sequence may lead it. */
  lemma AscendingCons(k: string, keys: seq<string>)
    requires Ascending(keys)
    requires forall i :: 0 <= i < |keys| ==> KeyValue(k) <= KeyValue(keys[i])
    ensures Ascending([k] + keys)
  {
    var r := [k] + keys;
    forall i, j | 0 <= i < j < |r| ensures KeyValue(r[i]) <= KeyValue(r[j]) {
      assert r[j] == keys[j - 1];
      if i > 0 {
        assert r[i] == keys[i - 1];
      }
    }
  }

  /** The head of an ascending sequence is no greater than an inserted larger
      key or any later element. */
  lemma HeadBelowRest(k: string, sorted: seq<string>, rest: seq<string>)
    requires sorted != [] && Ascending(sorted) && KeyValue(sorted[0]) < KeyValue(k)
    requires forall i :: 0 <= i < |rest| ==> rest[i] == k || rest[i] in sorted[1..]
    ensures forall i :: 0 <= i < |rest| ==> KeyValue(sorted[0]) <= KeyValue(rest[i])
  {
    forall i | 0 <= i < |rest| ensures KeyValue(sorted[0]) <= KeyValue(rest[i]) {
      if rest[i] != k {
        var t :| 0 <= t < |sorted[1..]| && sorted[1..][t] == rest[i];
        assert sorted[t + 1] == rest[i];
      }
    }
  }

  /** Insertion of one key into an ascending sequence. */
  function Insert(k: string, sorted: seq<string>): (r: seq<string>)
    requires Ascending(sorted)
    ensures Ascending(r)
    ensures multiset(r) == multiset(sorted) + multiset{k}
    ensures forall i :: 0 <= i < |r| ==> r[i] == k || r[i] in sorted
  {
    if sorted == [] then [k]
    else if KeyValue(k) <= KeyValue(sorted[0]) then
      AscendingCons(k, sorted);
      [k] + sorted
    else
      var rest := Insert(k, sorted[1..]);
      assert sorted == [sorted[0]] + sorted[1..];
      HeadBelowRest(k, sorted, rest);
      AscendingCons(sorted[0], rest);
      [sorted[0]] + rest
  }

  /** The keys in ascending numeric order. */
  function SortIndices(keys: seq<string>): (r: seq<string>)
    ensures Ascending(r)
    ensures multiset(r) == multiset(keys)
  {
    if keys == [] then []
    else
      assert keys == [keys[0]] + keys[1..];
      Insert(keys[0], SortIndices(keys[1..]))
  }

  function IndexKeys(keys: seq<string>): (r: seq<string>)
    ensures AllIndices(r)
  {
    if keys == [] then []
    else (if IsArrayIndex(keys[0]) then [keys[0]] else []) + IndexKeys(keys[1..])
  }

  function OtherKeys(keys: seq<string>): (r: seq<string>)
    ensures forall i :: 0 <= i < |r| ==> !IsArrayIndex(r[i])
  {
    if keys == [] then []
    else (if IsArrayIndex(keys[0]) then [] else [keys[0]]) + OtherKeys(keys[1..])
  }

  lemma {:induction false} PartitionKeys(keys: seq<string>)
    ensures multiset(IndexKeys(keys)) + multiset(OtherKeys(keys)) == multiset(keys)
    decreases |keys|
  {
    if keys != [] {
      PartitionKeys(keys[1..]);
      assert keys == [keys[0]] + keys[1..];
      if IsArrayIndex(keys[0]) {
        assert IndexKeys(keys) == [keys[0]] + IndexKeys(keys[1..]);
        assert OtherKeys(keys) == OtherKeys(keys[1..]);
      } else {
        assert IndexKeys(keys) == IndexKeys(keys[1..]);
        assert OtherKeys(keys) == [keys[0]] + OtherKeys(keys[1..]);
      }
    }
  }

  /** `Object.keys` of an object whose own properties were created in the
      order of `keys`: array indices first in ascending numeric order, then
      the other keys in creation order. */
  function ObjectKeys(keys: seq<string>): seq<string> {
    SortIndices(IndexKeys(keys)) + OtherKeys(keys)
  }

  /** `Object.keys` lists every key once, and in the order the language fixes. */
  lemma ObjectKeysOrder(keys: seq<string>)
    ensures multiset(ObjectKeys(keys)) == multiset(keys)
    ensures |ObjectKeys(keys)| == |keys|
    ensures var n := |IndexKeys(keys)|;
      && AllIndices(ObjectKeys(keys)[..n]) && Ascending(ObjectKeys(keys)[..n])
      && ObjectKeys(keys)[n..] == OtherKeys(keys)
  {
    PartitionKeys(keys);
    var s := SortIndices(IndexKeys(keys));
    assert multiset(ObjectKeys(keys)) == multiset(s) + multiset(OtherKeys(keys));
    assert AllIndices(s) by {
      forall i | 0 <= i < |s| ensures IsArrayIndex(s[i]) {
        assert s[i] in multiset(s);
        assert s[i] in IndexKeys(keys);
      }
    }
    assert |ObjectKeys(keys)| == |multiset(ObjectKeys(keys))|;
    assert ObjectKeys(keys)[..|s|] == s;
  }

  /** Names without `__proto__` and without repeats. */
  predicate Roster(names: seq<string>) {
    && (forall i, j :: 0 <= i < j < |names| ==> names[i] != names[j])
    && "__proto__" !in names
  }

  /** `usernamesMap[name] = true`: a new key goes last; assigning `__proto__`
      a boolean changes nothing. */
  function AddName(names: seq<string>, name: string): (r: seq<string>)
    ensures Roster(names) ==> Roster(r)
    ensures forall x :: x in r <==> x in names || (x == name && name != "__proto__")
    ensures name != "__proto__" && name !in names ==> r == names + [name]
    ensures name == "__proto__" || name in names ==> r == names
  {
    if name == "__proto__" || name in names then names else names + [name]
  }

  /** `delete usernamesMap[name]`. */
  function RemoveName(names: seq<string>, name: string): (r: seq<string>)
    ensures Roster(names) ==> Roster(r)
    ensures forall x :: x in r <==> x in names && x != name
    ensures |r| <= |names|
    ensures name !in names ==> r == names
    ensures Roster(names) && name in names ==>
      exists i :: 0 <= i < |names| && names[i] == name && r == names[..i] + names[i + 1..]
  {
    if names == [] then []
    else
      var rest := RemoveName(names[1..], name);
      assert forall i :: 0 <= i < |names| - 1 ==> names[1..][i] == names[i + 1];
      assert Roster(names) ==> names[0] !in names[1..];
      assert name !in names ==> name !in names[1..] && names == [names[0]] + names[1..];
      RemoveWitness(names, name, rest);
      (if names[0] == name then [] else [names[0]]) + rest
  }

  /** One step of `RemoveName`'s recursion: given what removal from the tail
      gives, removal from the whole list takes out the one occurrence of the
      name and keeps the other names in their order. */
  lemma RemoveWitness(names: seq<string>, name: string, rest: seq<string>)
    requires names != []
    requires name !in names[1..] ==> rest == names[1..]
    requires Roster(names[1..]) && name in names[1..] ==>
      exists i :: 0 <= i < |names[1..]| && names[1..][i] == name && rest == names[1..][..i] + names[1..][i + 1..]
    ensures Roster(names) && name in names ==>
      exists i :: 0 <= i < |names| && names[i] == name &&
        (if names[0] == name then [] else [names[0]]) + rest == names[..i] + names[i + 1..]
  {
    var tail := names[1..];
    var r := (if names[0] == name then [] else [names[0]]) + rest;
    if Roster(names) && name in names {
      assert names[0] !in tail by {
        assert forall i :: 0 <= i < |tail| ==> tail[i] == names[i + 1];
      }
      if names[0] == name {
        assert r == names[..0] + names[1..];
      } else {
        assert name in tail;
        assert Roster(tail) by {
          assert forall i :: 0 <= i < |tail| ==> tail[i] == names[i + 1];
        }
        var i :| 0 <= i < |tail| && tail[i] == name && rest == tail[..i] + tail[i + 1..];
        assert names[..i + 1] == [names[0]] + tail[..i];
        assert names[i + 2..] == tail[i + 1..];
        assert names[i + 1] == name && r == names[..i + 1] + names[i + 2..];
      }
    }
  }

  /** `"[a], [b], [c]"`. */
  function Bracketed(names: seq<string>): (r: string) {
    if names == [] then ""
    else if |names| == 1 then "[" + names[0] + "]"
    else "[" + names[0] + "], " + Bracketed(names[1..])
  }

  /** `sendCurrentPlayers`'s text: the number of names on the roster, then
      the names in the order `Object.keys` lists them. */
  function PlayersMessage(names: seq<string>): (r: string)
    ensures r == NatToString(|names|) + " users: " + Bracketed(ObjectKeys(names)) + " playing"
  {
    var keys := ObjectKeys(names);
    ObjectKeysOrder(names);
    NatToString(|keys|) + " users: " + Bracketed(keys) + " playing"
  }

  // ---------------------------------------------------------------------------
  // The bot's reactions to supervisor events

  datatype Post = Post(channel: nat, text: string)

  datatype BotView = BotView(usernames: seq<string>, posts: seq<Post>)

  /** A command's reply, if it has one, posted to the channel it came from. */
  function Replied(b: BotView, channel: nat, reply: Option<string>): BotView {
    match reply
    case None => b
    case Some(text) => b.(posts := b.posts + [Post(channel, text)])
  }

  /** The callbacks the bot script installs on the supervisor, posting to
      `channel`; output chunks are only logged. */
  function React(b: BotView, channel: nat, e: Event): (r: BotView)
    ensures Roster(b.usernames) ==> Roster(r.usernames)
    ensures b.posts <= r.posts
  {
    match e
    case OnJoin(_, name) =>
      var names := AddName(b.usernames, name);
      BotView(names, b.posts + [Post(channel, "[" + name + "] joined"), Post(channel, PlayersMessage(names))])
    case OnLeave(_, name) =>
      var names := RemoveName(b.usernames, name);
      BotView(names, b.posts + [Post(channel, "[" + name + "] leaved"), Post(channel, PlayersMessage(names))])
    case OnStart => b.(posts := b.posts + [Post(channel, "server starting")])
    case OnStarted => b.(posts := b.posts + [Post(channel, "server started")])
    case OnStop => b.(posts := b.posts + [Post(channel, "server stopping")])
    case OnStopped => b.(posts := b.posts + [Post(channel, "server stopped")])
    case OnWorldLoaded => b
    case OnMessage(_, _) => b
  }

  /** The reactions to several events, in order. */
  function ReactAll(b: BotView, channel: nat, es: seq<Event>): (r: BotView)
    decreases |es|
  {
    if es == [] then b else React(ReactAll(b, channel, es[..|es| - 1]), channel, es[|es| - 1])
  }

  /** Whatever the events, the roster keeps each name once and never holds
      `__proto__`, and posts are only ever added. */
  lemma {:induction false} ReactAllKeepsRoster(b: BotView, channel: nat, es: seq<Event>)
    requires Roster(b.usernames)
    ensures Roster(ReactAll(b, channel, es).usernames)
    ensures b.posts <= ReactAll(b, channel, es).posts
    decreases |es|
  {
    if es != [] {
      ReactAllKeepsRoster(b, channel, es[..|es| - 1]);
    }
  }

  lemma {:induction false} ReactAllAppend(b: BotView, channel: nat, es: seq<Event>, more: seq<Event>)
    ensures ReactAll(b, channel, es + more) == ReactAll(ReactAll(b, channel, es), channel, more)
    decreases |more|
  {
    if more == [] {
      assert es + more == es;
    } else {
      assert (es + more)[..|es + more| - 1] == es + more[..|more| - 1];
      ReactAllAppend(b, channel, es, more[..|more| - 1]);
    }
  }

  /** A join puts the name on the roster and posts the greeting and the new
      player list; a leave takes it off and does the same. */
  lemma JoinAndLeave(b: BotView, channel: nat, id: string, name: string)
    requires Roster(b.usernames) && name != "__proto__"
    ensures var j := React(b, channel, OnJoin(id, name));
      && name in j.usernames && |j.usernames| == |b.usernames| + (if name in b.usernames then 0 else 1)
      && j.posts == b.posts + [Post(channel, "[" + name + "] joined"), Post(channel, PlayersMessage(j.usernames))]
    ensures var l := React(b, channel, OnLeave(id, name));
      && name !in l.usernames
      && l.posts == b.posts + [Post(channel, "[" + name + "] leaved"), Post(channel, PlayersMessage(l.usernames))]
    ensures React(React(b, channel, OnJoin(id, name)), channel, OnLeave(id, name)).usernames ==
      RemoveName(b.usernames, name)
  {
    RemoveAppended(b.usernames, name);
  }

  lemma {:induction false} RemoveAppended(names: seq<string>, name: string)
    ensures RemoveName(AddName(names, name), name) == RemoveName(names, name)
    decreases |names|
  {
    if name != "__proto__" && name !in names {
      RemoveLast(names, name);
    }
  }

  lemma {:induction false} RemoveLast(names: seq<string>, name: string)
    ensures RemoveName(names + [name], name) == RemoveName(names, name)
    decreases |names|
  {
    if names == [] {
      assert RemoveName([name], name) == [] + RemoveName([], name);
    } else {
      assert (names + [name])[1..] == names[1..] + [name];
      RemoveLast(names[1..], name);
    }
  }

  /** The player list names exactly the players on the roster, each once. */
  lemma PlayersListed(names: seq<string>)
    requires Roster(names)
    ensures forall x :: x in ObjectKeys(names) <==> x in names
    ensures |ObjectKeys(names)| == |names|
  {
    ObjectKeysOrder(names);
    assert forall x :: x in ObjectKeys(names) <==> x in multiset(ObjectKeys(names));
  }

  // ---------------------------------------------------------------------------
  // The bot

  class Bot {
    const botId: nat
    const channelId: nat
    var usernames: seq<string>
    var posts: seq<Post>

    function Model(): BotView
      reads this
    {
      BotView(usernames, posts)
    }

    predicate Valid()
      reads this
    {
      Roster(usernames)
    }

    constructor (botId: nat, channelId: nat)
      ensures this.botId == botId && this.channelId == channelId
      ensures Valid() && Model() == BotView([], [])
    {
      this.botId := botId;
      this.channelId := channelId;
      usernames := [];
      posts := [];
    }

    method Send(channel: nat, text: string)
      modifies this
      ensures usernames == old(usernames) && posts == old(posts) + [Post(channel, text)]
    {
      posts := posts + [Post(channel, text)];
    }

    /** `sendCurrentPlayers`. */
    method SendCurrentPlayers()
      modifies this
      ensures usernames == old(usernames)
      ensures posts == old(posts) + [Post(channelId, PlayersMessage(usernames))]
    {
      Send(channelId, PlayersMessage(usernames));
    }

    /** `onJoin`. */
    method Joined(name: string)
      requires Valid()
      modifies this
      ensures Valid() && Model() == React(old(Model()), channelId, OnJoin("", name))
    {
      if name != "__proto__" && name !in usernames {
        usernames := usernames + [name];
      }
      assert usernames == AddName(old(usernames), name);
      Send(channelId, "[" + name + "] joined");
      SendCurrentPlayers();
    }

    /** `onLeave`. */
    method Left(name: string)
      requires Valid()
      modifies this
      ensures Valid() && Model() == React(old(Model()), channelId, OnLeave("", name))
    {
      usernames := RemoveName(usernames, name);
      Send(channelId, "[" + name + "] leaved");
      SendCurrentPlayers();
    }

    /** The callback the supervisor invokes for event `e`. */
    method ReactTo(e: Event)
      requires Valid()
      modifies this
      ensures Valid() && Model() == React(old(Model()), channelId, e)
    {
      match e
      case OnJoin(_, name) => Joined(name);
      case OnLeave(_, name) => Left(name);
      case OnStart => Send(channelId, "server starting");
      case OnStarted => Send(channelId, "server started");
      case OnStop => Send(channelId, "server stopping");
      case OnStopped => Send(channelId, "server stopped");
      case OnWorldLoaded =>
      case OnMessage(_, _) =>
    }

    method ReactToAll(es: seq<Event>)
      requires Valid()
      modifies this
      ensures Valid() && Model() == ReactAll(old(Model()), channelId, es)
    {
      ghost var start := Model();
      for i := 0 to |es|
        invariant Valid() && Model() == ReactAll(start, channelId, es[..i])
      {
        assert es[..i + 1][..i] == es[..i];
        ReactTo(es[i]);
      }
      assert es[..|es|] == es;
    }

    /** Runs the supervisor operation a command asks for. */
    static method Invoke(m: Manager, a: Action)
      requires m.Valid()
      modifies m
      ensures m.Valid() && m.Model() == Perform(old(m.Model()), a)
    {
      match a
      case NoAction =>
      case InvokeStart => m.Start();
      case InvokeRestart => m.Restart();
      case InvokeStop => m.Stop();
    }

    /** `messageCreate` for a message in channel `channel`: a reply goes to
      that channel, the invoked operation runs on the supervisor, and the
      events it reports are posted to the bot's channel. */
    method MessageCreate(m: Manager, mentioned: seq<nat>, channel: nat, content: string)
      requires Valid() && m.Valid()
      modifies this, m
      ensures Valid() && m.Valid()
      ensures m.Model() == Perform(old(m.Model()), Command(mentioned, botId, content, old(m.state)).action)
      ensures old(m.events) <= m.events
      ensures Model() == ReactAll(Replied(old(Model()), channel, Command(mentioned, botId, content, old(m.state)).reply),
                                  channelId, m.events[|old(m.events)|..])
    {
      var r := Command(mentioned, botId, content, m.state);
      if r.reply.Some? {
        Send(channel, r.reply.value);
      }
      assert Model() == Replied(old(Model()), channel, r.reply);
      var before := |m.events|;
      Invoke(m, r.action);
      ReactToAll(m.events[before..]);
    }

    /** A chunk of output from the supervised process reaches the supervisor,
      and the events it reports are posted. */
    method DeliverOutput(m: Manager, message: string, stderr: bool)
      requires Valid() && m.Valid() && m.hasProcess
      modifies this, m
      ensures Valid() && m.Valid()
      ensures m.Model() == HandleMessageStep(old(m.Model()), message, stderr)
      ensures old(m.events) <= m.events
      ensures Model() == ReactAll(old(Model()), channelId, m.events[|old(m.events)|..])
    {
      var before := |m.events|;
      m.HandleMessage(message, stderr);
      MessageStepExtends(old(m.Model()), message, stderr);
      ReactToAll(m.events[before..]);
    }

    /** The supervised process closes. */
    method DeliverClose(m: Manager)
      requires Valid() && m.Valid()
      modifies this, m
      ensures Valid() && m.Valid()
      ensures m.Model() == HandleCloseStep(old(m.Model()))
      ensures old(m.events) <= m.events
      ensures Model() == ReactAll(old(Model()), channelId, m.events[|old(m.events)|..])
    {
      var before := |m.events|;
      m.HandleClose();
      CloseStepExtends(old(m.Model()));
      ReactToAll(m.events[before..]);
    }
  }

  lemma MessageStepExtends(s: Snapshot, message: string, stderr: bool)
    ensures s.events <= HandleMessageStep(s, message, stderr).events
  {
    var logged := s.(events := s.events + [OnMessage(message, stderr)]);
    if Classify(s.quitPrompt.Some?, message) == QuitPrompt {
      ResumeExtends(SendLineStep(logged.(quitPrompt := None), "yes"), s.quitPrompt.value);
    }
  }

  lemma ResumeExtends(s: Snapshot, caller: StopCaller)
    ensures s.events <= ResumeStep(s, caller).events
  {
  }

  lemma {:induction false} ResumeAllExtends(s: Snapshot, callers: seq<StopCaller>)
    ensures s.events <= ResumeAllStep(s, callers).events
    decreases |callers|
  {
    if callers != [] {
      ResumeExtends(s, callers[0]);
      ResumeAllExtends(ResumeStep(s, callers[0]), callers[1..]);
    }
  }

  lemma CloseStepExtends(s: Snapshot)
    ensures s.events <= HandleCloseStep(s).events
  {
    var closed := s.(closePending := false, closeAwaiters := [], hasProcess := false,
                     state := Idle, events := s.events + [OnStopped]);
    ResumeAllExtends(closed, s.closeAwaiters);
  }

  /** Asking an idle server to start starts it and the bot announces it;
      asking a running one to start is refused with its state. */
  lemma StartCommandFlow(s: Snapshot, b: BotView, channel: nat)
    requires Inv(s)
    ensures s.state == Idle ==>
      && Dispatch("start", s.state) == Response(InvokeStart, None)
      && Perform(s, InvokeStart).events == s.events + [OnStart]
      && ReactAll(b, channel, [OnStart]).posts == b.posts + [Post(channel, "server starting")]
    ensures s.state == Running ==>
      Dispatch("start", s.state) == Response(NoAction, Some("Cannot start! Server is running"))
  {
    assert [OnStart][..0] == [];
    assert ReactAll(b, channel, [OnStart]) == React(b, channel, OnStart);
    assert Refusal("start", Running) == "Cannot start! Server is running";
  }
}
