/**
 * The supervisor of one dedicated-server process: its four states, the guards
 * on its transitions, the shutdown handshake over the process's stdin, and the
 * events it reports to its host.
 *
 * The asynchronous `stop()` is cut at its `await`s. `stop()` runs up to the
 * wait for the quit prompt and leaves its continuation in the quit-prompt slot;
 * when the prompt is seen the continuation writes "yes\n" and waits for the
 * process to close; once it is closed, `stop()` returns, and `restart()`
 * calls `start()`. Writes to stdin are taken to complete at once.
 *
 * `Snapshot` is the whole state as a value, the `...Step` functions say what
 * each operation does to it, the lemmas state what the supervisor promises,
 * and class `Manager` performs the operations in place, each method proved to
 * have the effect of its step function.
 */
module ServerManager {
  import opened Options
  import opened Text
  import opened Classifier

  datatype State = Idle | Starting | Running | Stopping

  /** The state as the source spells it in replies. */
  function StateName(st: State): (r: string) {
    match st
    case Idle => "idle"
    case Starting => "starting"
    case Running => "running"
    case Stopping => "stopping"
  }

  predicate CanStart(st: State) {
    st == Idle
  }

  predicate CanStop(st: State) {
    st == Running
  }

  predicate CanRestart(st: State) {
    CanStop(st)
  }

  /** The callbacks the supervisor invokes, in the order it invokes them. */
  datatype Event =
    | OnStart
    | OnStop
    | OnWorldLoaded
    | OnStarted
    | OnJoin(id: string, name: string)
    | OnLeave(id: string, name: string)
    | OnStopped
    | OnMessage(message: string, stderr: bool)

  /** The two copies of the class: the standalone `CraftopiaServerManager`
      and the one inlined in the bot script, which calls `onStarted` where
      the standalone one calls `onWorldLoaded`. */
  datatype Variant = Standalone | Inlined

  function WorldLoadedEvent(v: Variant): (e: Event) {
    match v
    case Standalone => OnWorldLoaded
    case Inlined => OnStarted
  }

  /** Who awaits a `stop()`: a direct caller, or `restart()`, which calls
      `start()` once `stop()` has returned. */
  datatype StopCaller = Direct | ByRestart

  datatype Snapshot = Snapshot(
    variant: Variant,
    state: State,
    hasProcess: bool,                  // `process` is set
    quitPrompt: Option<StopCaller>,    // `resolveQuitPrompt`: the stop() it resumes
    closePending: bool,                // `resolveClose` is set: `closed` is unresolved
    closeAwaiters: seq<StopCaller>,    // stop() calls suspended on `closed`
    stdin: seq<string>,                // everything written to the process's stdin
    events: seq<Event>)                // every callback invoked

  /** A process is held exactly while the state is not idle, and exactly while
      its close is awaited; only an unresolved `closed` can have waiters. */
  predicate Inv(s: Snapshot) {
    && s.closePending == s.hasProcess
    && (s.hasProcess <==> s.state != Idle)
    && (s.closeAwaiters != [] ==> s.closePending)
  }

  function Initial(v: Variant): (s: Snapshot) {
    Snapshot(v, Idle, false, None, false, [], [], [])
  }

  /** `sendString`: written only while a process is held. */
  function SendStringStep(s: Snapshot, str: string): (r: Snapshot)
    ensures Inv(s) ==> Inv(r)
  {
    if s.hasProcess then s.(stdin := s.stdin + [str]) else s
  }

  /** `sendLine(l)` writes exactly `l + "\n"` while a process is held,
      nothing otherwise, and changes nothing else. */
  function SendLineStep(s: Snapshot, line: string): (r: Snapshot)
    ensures r.stdin == if s.hasProcess then s.stdin + [line + "\n"] else s.stdin
    ensures r.(stdin := s.stdin) == s
    ensures Inv(s) ==> Inv(r)
  {
    SendStringStep(s, line + "\n")
  }

  /** `start`: spawns the process and creates a fresh, unresolved `closed`. */
  function StartStep(s: Snapshot): (r: Snapshot)
    ensures Inv(s) ==> Inv(r)
  {
    if s.hasProcess || !CanStart(s.state) then s
    else s.(state := Starting, events := s.events + [OnStart], hasProcess := true,
            closePending := true, closeAwaiters := [])
  }

  /** What runs once a `stop()` has returned to its caller. */
  function ResumeStep(s: Snapshot, caller: StopCaller): (r: Snapshot)
    ensures Inv(s) ==> Inv(r)
    ensures r.stdin == s.stdin && r.quitPrompt == s.quitPrompt && s.events <= r.events
  {
    match caller
    case Direct => s
    case ByRestart => StartStep(s)
  }

  /** `stop()` up to its first suspension (`restart()` when `caller` is
      `ByRestart`); a refused stop returns at once. */
  function StopStep(s: Snapshot, caller: StopCaller): (r: Snapshot)
    ensures Inv(s) ==> Inv(r)
  {
    if !s.hasProcess || !CanStop(s.state) then ResumeStep(s, caller)
    else SendLineStep(s.(state := Stopping, events := s.events + [OnStop], quitPrompt := Some(caller)), "quit")
  }

  /** `await this.closed`: suspends while the process is held, else returns. */
  function AwaitCloseStep(s: Snapshot, caller: StopCaller): (r: Snapshot)
    ensures Inv(s) ==> Inv(r)
    ensures r.stdin == s.stdin && r.quitPrompt == s.quitPrompt
    ensures s.closePending ==> r.closeAwaiters == s.closeAwaiters + [caller] && r.events == s.events
  {
    if s.closePending then s.(closeAwaiters := s.closeAwaiters + [caller]) else ResumeStep(s, caller)
  }

  /** The continuation of `stop()` after the quit prompt has been seen. */
  function QuitPromptStep(s: Snapshot, caller: StopCaller): (r: Snapshot)
    ensures Inv(s) ==> Inv(r)
    ensures r.stdin == if s.hasProcess then s.stdin + ["yes\n"] else s.stdin
    ensures r.quitPrompt == s.quitPrompt
    ensures s.closePending ==> r.closeAwaiters == s.closeAwaiters + [caller] && r.events == s.events
  {
    assert "yes" + "\n" == "yes\n";
    AwaitCloseStep(SendLineStep(s, "yes"), caller)
  }

  /** `handleMessage`: forward the chunk, then act on its one outcome. */
  function HandleMessageStep(s: Snapshot, message: string, stderr: bool): (r: Snapshot)
    ensures Inv(s) && s.hasProcess ==> Inv(r)
  {
    OutcomeStep(s.(events := s.events + [OnMessage(message, stderr)]), Classify(s.quitPrompt.Some?, message))
  }

  /** The branch of `handleMessage` taken for outcome `o`, once the chunk has
      been forwarded. */
  function OutcomeStep(logged: Snapshot, o: Outcome): (r: Snapshot)
    requires o.QuitPrompt? ==> logged.quitPrompt.Some?
    ensures Inv(logged) && logged.hasProcess ==> Inv(r)
  {
    match o
    case QuitPrompt => QuitPromptStep(logged.(quitPrompt := None), logged.quitPrompt.value)
    case WorldLoaded => logged.(state := Running, events := logged.events + [WorldLoadedEvent(logged.variant)])
    case Joined(id, name) => logged.(events := logged.events + [OnJoin(id, name)])
    case Left(id, name) => logged.(events := logged.events + [OnLeave(id, name)])
    case Unrecognised => logged
  }

  /** Resumes the given suspended stop() calls in the order they suspended. */
  function ResumeAllStep(s: Snapshot, callers: seq<StopCaller>): (r: Snapshot)
    ensures Inv(s) && s.closeAwaiters == [] ==> Inv(r) && r.closeAwaiters == []
    ensures r.stdin == s.stdin && s.events <= r.events
    decreases |callers|
  {
    if callers == [] then s else ResumeAllStep(ResumeStep(s, callers[0]), callers[1..])
  }

  /** `handleClose`: resolve `closed`, drop the process, go idle, report it;
      then the stop() calls that were waiting for the close return. */
  function HandleCloseStep(s: Snapshot): (r: Snapshot)
    ensures Inv(r)
  {
    var closed := s.(closePending := false, closeAwaiters := [], hasProcess := false,
                     state := Idle, events := s.events + [OnStopped]);
    ResumeAllStep(closed, s.closeAwaiters)
  }

  // ---------------------------------------------------------------------------
  // What the supervisor promises

  /** The guards say exactly when an operation takes effect: `start` changes
      something only when `canStart`, `stop` only when `canStop`, and
      `restart` when `canRestart` or, through its `start`, when `canStart`. */
  lemma Capabilities(s: Snapshot)
    requires Inv(s)
    ensures StartStep(s) != s <==> CanStart(s.state)
    ensures StopStep(s, Direct) != s <==> CanStop(s.state)
    ensures StopStep(s, ByRestart) != s <==> CanRestart(s.state) || CanStart(s.state)
  {
    if CanStop(s.state) {
      assert |StopStep(s, Direct).stdin| == |s.stdin| + 1;
      assert |StopStep(s, ByRestart).stdin| == |s.stdin| + 1;
    }
    if CanStart(s.state) {
      assert |StartStep(s).events| == |s.events| + 1;
    }
  }

  /** `start` does nothing when a process is held or the state is not idle;
      otherwise it moves to starting, reports the start once, holds a process
      and awaits its close, and writes nothing. */
  lemma StartContract(s: Snapshot)
    ensures s.hasProcess || s.state != Idle ==> StartStep(s) == s
    ensures !s.hasProcess && s.state == Idle ==>
      var r := StartStep(s);
      && r.state == Starting && r.hasProcess && r.closePending
      && r.events == s.events + [OnStart]
      && r.stdin == s.stdin && r.quitPrompt == s.quitPrompt
  {
  }

  /** `stop` does nothing unless a process is held and the state is running;
      otherwise it moves to stopping, reports it, leaves its continuation in
      the quit-prompt slot and writes exactly "quit\n". */
  lemma StopContract(s: Snapshot)
    ensures !s.hasProcess || s.state != Running ==> StopStep(s, Direct) == s
    ensures s.hasProcess && s.state == Running ==>
      var r := StopStep(s, Direct);
      && r.state == Stopping && r.hasProcess
      && r.events == s.events + [OnStop]
      && r.quitPrompt == Some(Direct)
      && r.stdin == s.stdin + ["quit\n"]
      && r.closeAwaiters == s.closeAwaiters
  {
    assert "quit" + "\n" == "quit\n";
  }

  /** `handleMessage` reports the raw chunk and its stream first, and only
      appends to what was reported before. */
  lemma MessageReportedFirst(s: Snapshot, message: string, stderr: bool)
    requires Inv(s) && s.hasProcess
    ensures var r := HandleMessageStep(s, message, stderr);
      |r.events| > |s.events| && r.events[..|s.events| + 1] == s.events + [OnMessage(message, stderr)]
  {
    var r := HandleMessageStep(s, message, stderr);
    var logged := s.events + [OnMessage(message, stderr)];
    assert logged <= r.events by {
      if Classify(s.quitPrompt.Some?, message).QuitPrompt? {
        assert r.events == logged;
      }
    }
  }

  /** The quit-prompt branch: taken exactly when a waiter is pending and the
      chunk starts with the prompt; it clears the waiter, writes exactly
      "yes\n", and nothing else happens for that chunk. */
  lemma QuitPromptBranch(s: Snapshot, message: string, stderr: bool)
    requires Inv(s) && s.hasProcess
    requires s.quitPrompt.Some? && StartsWith(message, QuitPromptMarker)
    ensures var r := HandleMessageStep(s, message, stderr);
      && r.quitPrompt == None
      && r.stdin == s.stdin + ["yes\n"]
      && r.events == s.events + [OnMessage(message, stderr)]
      && r.state == s.state && r.hasProcess
      && r.closeAwaiters == s.closeAwaiters + [s.quitPrompt.value]
  {
    assert "yes" + "\n" == "yes\n";
  }

  /** "yes\n" is written only by the quit-prompt branch: with no waiter pending,
      or for any other chunk, handling a chunk writes nothing. */
  lemma OnlyPromptWritesYes(s: Snapshot, message: string, stderr: bool)
    requires Inv(s) && s.hasProcess
    requires s.quitPrompt.None? || !StartsWith(message, QuitPromptMarker)
    ensures HandleMessageStep(s, message, stderr).stdin == s.stdin
    ensures HandleMessageStep(s, message, stderr).quitPrompt == s.quitPrompt
  {
  }

  /** The waiter resolves at most once: after it has, no chunk at all (the same
      prompt again included) writes anything or resolves anything. */
  lemma PromptResolvesOnce(s: Snapshot, message: string, later: string, stderr: bool)
    requires Inv(s) && s.hasProcess
    requires s.quitPrompt.Some? && StartsWith(message, QuitPromptMarker)
    ensures var r := HandleMessageStep(s, message, stderr);
      && HandleMessageStep(r, later, stderr).stdin == r.stdin
      && HandleMessageStep(r, later, stderr).quitPrompt == None
  {
    QuitPromptBranch(s, message, stderr);
    var r := HandleMessageStep(s, message, stderr);
    OnlyPromptWritesYes(r, later, stderr);
  }

  /** Every chunk starting with the world-loaded marker sets the state to
      running and reports the world loaded, each time, and never reports a start. */
  lemma WorldLoadedBranch(s: Snapshot, message: string, stderr: bool)
    requires StartsWith(message, WorldLoadedMarker)
    ensures HandleMessageStep(s, message, stderr) ==
      s.(state := Running, events := s.events + [OnMessage(message, stderr), WorldLoadedEvent(s.variant)])
  {
    MarkersExclusive(message);
  }

  /** Otherwise the first presence record in the chunk is reported as a join
      or a leave with its id and name; a chunk matching nothing reports only
      the raw message. The state is never changed by these branches. */
  lemma PresenceBranch(s: Snapshot, message: string, stderr: bool)
    requires !(s.quitPrompt.Some? && StartsWith(message, QuitPromptMarker))
    requires !StartsWith(message, WorldLoadedMarker)
    ensures var r := HandleMessageStep(s, message, stderr);
      r == s.(events := s.events + [OnMessage(message, stderr)] +
        match FindPresence(message)
        case Some(p) => if p.active then [OnJoin(p.id, p.name)] else [OnLeave(p.id, p.name)]
        case None => [])
  {
  }

  /** Only `handleClose` brings a started supervisor back to idle. */
  lemma OnlyCloseReturnsToIdle(s: Snapshot, caller: StopCaller, message: string, stderr: bool, str: string)
    requires Inv(s) && s.state != Idle
    ensures StartStep(s).state != Idle
    ensures StopStep(s, caller).state != Idle
    ensures HandleMessageStep(s, message, stderr).state != Idle
    ensures SendStringStep(s, str).state != Idle
  {
  }

  /** Resuming waiters after a close: the first `restart()` among them starts
      the server again; every later one and every direct `stop()` does nothing. */
  lemma {:induction false} ResumeAfterClose(s: Snapshot, callers: seq<StopCaller>)
    requires Inv(s) && s.state == Idle && s.closeAwaiters == []
    ensures ResumeAllStep(s, callers) == if ByRestart in callers then StartStep(s) else s
    decreases |callers|
  {
    if callers != [] {
      if callers[0] == ByRestart {
        ResumeWhileHeld(StartStep(s), callers[1..]);
      } else {
        ResumeAfterClose(s, callers[1..]);
        assert ByRestart in callers <==> ByRestart in callers[1..];
      }
    }
  }

  lemma {:induction false} ResumeWhileHeld(s: Snapshot, callers: seq<StopCaller>)
    requires s.hasProcess
    ensures ResumeAllStep(s, callers) == s
    decreases |callers|
  {
    if callers != [] {
      ResumeWhileHeld(ResumeStep(s, callers[0]), callers[1..]);
    }
  }

  /** `handleClose` resolves the close, drops the process, goes idle and reports
      the stop once; a restart that was waiting then starts the server again. */
  lemma CloseContract(s: Snapshot)
    requires Inv(s)
    ensures var closed := s.(closePending := false, closeAwaiters := [], hasProcess := false,
                             state := Idle, events := s.events + [OnStopped]);
      var r := HandleCloseStep(s);
      && r == (if ByRestart in s.closeAwaiters then StartStep(closed) else closed)
      && r.events == s.events + [OnStopped] + (if ByRestart in s.closeAwaiters then [OnStart] else [])
      && r.state == (if ByRestart in s.closeAwaiters then Starting else Idle)
      && r.stdin == s.stdin
  {
    var closed := s.(closePending := false, closeAwaiters := [], hasProcess := false,
                     state := Idle, events := s.events + [OnStopped]);
    ResumeAfterClose(closed, s.closeAwaiters);
  }

  /** One full cycle from a fresh supervisor, driven only when the guards
      allow: idle, starting, running, stopping, idle, with "quit\n" then
      "yes\n" written and each callback reported once, in order. */
  lemma FullCycle(v: Variant)
    ensures var s0 := Initial(v);
      var s1 := StartStep(s0);
      var s2 := HandleMessageStep(s1, WorldLoadedMarker, false);
      var s3 := StopStep(s2, Direct);
      var s4 := HandleMessageStep(s3, QuitPromptMarker, false);
      var s5 := HandleCloseStep(s4);
      && [s0.state, s1.state, s2.state, s3.state, s4.state, s5.state]
         == [Idle, Starting, Running, Stopping, Stopping, Idle]
      && s5.stdin == ["quit\n", "yes\n"]
      && s5.events == [OnStart, OnMessage(WorldLoadedMarker, false), WorldLoadedEvent(v), OnStop,
                       OnMessage(QuitPromptMarker, false), OnStopped]
      && s5.quitPrompt == None && !s5.hasProcess
  {
    var s0 := Initial(v);
    var s1 := StartStep(s0);
    assert s1.events == [OnStart];
    WorldLoadedBranch(s1, WorldLoadedMarker, false);
    var s2 := HandleMessageStep(s1, WorldLoadedMarker, false);
    assert s2.events == [OnStart, OnMessage(WorldLoadedMarker, false), WorldLoadedEvent(v)];
    StopContract(s2);
    var s3 := StopStep(s2, Direct);
    assert s3.stdin == ["quit\n"];
    QuitPromptBranch(s3, QuitPromptMarker, false);
    var s4 := HandleMessageStep(s3, QuitPromptMarker, false);
    assert s4.stdin == ["quit\n", "yes\n"];
    assert s4.closeAwaiters == [Direct];
    CloseContract(s4);
  }

  /** `restart()` from running: the same shutdown handshake, then, once the
      process has closed, a new start. */
  lemma RestartCycle(s: Snapshot)
    requires Inv(s) && s.state == Running && s.quitPrompt.None? && s.closeAwaiters == []
    ensures var s1 := StopStep(s, ByRestart);
      var s2 := HandleMessageStep(s1, QuitPromptMarker, false);
      var s3 := HandleCloseStep(s2);
      && s1.state == Stopping
      && s3.state == Starting && s3.hasProcess
      && s3.stdin == s.stdin + ["quit\n", "yes\n"]
      && s3.events == s.events + [OnStop, OnMessage(QuitPromptMarker, false), OnStopped, OnStart]
  {
    var s1 := StopStep(s, ByRestart);
    assert "quit" + "\n" == "quit\n";
    assert s1.stdin == s.stdin + ["quit\n"] && s1.quitPrompt == Some(ByRestart);
    QuitPromptBranch(s1, QuitPromptMarker, false);
    var s2 := HandleMessageStep(s1, QuitPromptMarker, false);
    assert s2.closeAwaiters == [ByRestart];
    assert s2.stdin == s.stdin + ["quit\n"] + ["yes\n"];
    CloseContract(s2);
  }

  /** `restart()` when idle is not refused: its `stop()` returns at once and
      its `start()` starts the server. */
  lemma RestartWhenIdleStarts(s: Snapshot)
    requires Inv(s) && s.state == Idle
    ensures StopStep(s, ByRestart) == StartStep(s)
    ensures StopStep(s, ByRestart).state == Starting
  {
  }

  /** A join record followed by the matching leave record reports one join and
      then one leave, with the same id and name. */
  lemma JoinThenLeave(s: Snapshot, id: string, name: string)
    requires Inv(s) && s.hasProcess
    requires WellFormed(Presence(id, true, name))
    ensures var join := PresenceLine(Presence(id, true, name));
      var leave := PresenceLine(Presence(id, false, name));
      var r := HandleMessageStep(HandleMessageStep(s, join, false), leave, false);
      && r.events == s.events + [OnMessage(join, false), OnJoin(id, name),
                                 OnMessage(leave, false), OnLeave(id, name)]
      && r.state == s.state && r.stdin == s.stdin
  {
    var join, leave := Presence(id, true, name), Presence(id, false, name);
    PresenceEvent(s, join);
    var s1 := HandleMessageStep(s, PresenceLine(join), false);
    assert s1.events == s.events + [OnMessage(PresenceLine(join), false), OnJoin(id, name)];
    PresenceEvent(s1, leave);
  }

  /** A chunk that is one presence record reports it and changes nothing else. */
  lemma PresenceEvent(s: Snapshot, p: Presence)
    requires WellFormed(p)
    ensures HandleMessageStep(s, PresenceLine(p), false) ==
      s.(events := s.events + [OnMessage(PresenceLine(p), false),
                               if p.active then OnJoin(p.id, p.name) else OnLeave(p.id, p.name)])
  {
    var line := PresenceLine(p);
    var o := if p.active then Joined(p.id, p.name) else Left(p.id, p.name);
    ClassifyPresenceLine(s.quitPrompt.Some?, p);
    MessageWithOutcome(s, line, false, o);
    var logged := s.(events := s.events + [OnMessage(line, false)]);
    OutcomeOfPresence(logged, p);
    assert logged.events + [if p.active then OnJoin(p.id, p.name) else OnLeave(p.id, p.name)]
        == s.events + [OnMessage(line, false), if p.active then OnJoin(p.id, p.name) else OnLeave(p.id, p.name)];
  }

  lemma OutcomeOfPresence(logged: Snapshot, p: Presence)
    ensures OutcomeStep(logged, if p.active then Joined(p.id, p.name) else Left(p.id, p.name)) ==
      logged.(events := logged.events + [if p.active then OnJoin(p.id, p.name) else OnLeave(p.id, p.name)])
  {
  }

  /** `handleMessage` with a known outcome. */
  lemma MessageWithOutcome(s: Snapshot, message: string, stderr: bool, o: Outcome)
    requires Classify(s.quitPrompt.Some?, message) == o
    ensures HandleMessageStep(s, message, stderr) == OutcomeStep(s.(events := s.events + [OnMessage(message, stderr)]), o)
  {
  }

  // ---------------------------------------------------------------------------
  // The inlined copy of the class

  function Relabel(e: Event): (r: Event) {
    if e == OnWorldLoaded then OnStarted else e
  }

  function RelabelAll(es: seq<Event>): (r: seq<Event>)
    ensures |r| == |es|
  {
    if es == [] then [] else [Relabel(es[0])] + RelabelAll(es[1..])
  }

  lemma {:induction false} RelabelAppend(a: seq<Event>, b: seq<Event>)
    ensures RelabelAll(a + b) == RelabelAll(a) + RelabelAll(b)
    decreases |a|
  {
    if a == [] {
      assert a + b == b;
    } else {
      assert (a + b)[0] == a[0];
      assert (a + b)[1..] == a[1..] + b;
      RelabelAppend(a[1..], b);
    }
  }

  /** What the inlined copy goes through where the standalone one goes through `s`. */
  function AsInlined(s: Snapshot): (r: Snapshot) {
    s.(variant := Inlined, events := RelabelAll(s.events))
  }

  /** The inlined copy behaves exactly like the standalone class, except that
      it reports `onStarted` where the other reports `onWorldLoaded`. */
  lemma InlinedCopyAgrees(s: Snapshot, caller: StopCaller, message: string, stderr: bool, str: string)
    requires s.variant == Standalone
    ensures StartStep(AsInlined(s)) == AsInlined(StartStep(s))
    ensures StopStep(AsInlined(s), caller) == AsInlined(StopStep(s, caller))
    ensures HandleMessageStep(AsInlined(s), message, stderr) == AsInlined(HandleMessageStep(s, message, stderr))
    ensures HandleCloseStep(AsInlined(s)) == AsInlined(HandleCloseStep(s))
    ensures SendStringStep(AsInlined(s), str) == AsInlined(SendStringStep(s, str))
  {
    ResumeCommutes(s, ByRestart);
    ResumeCommutes(s, caller);
    RelabelSnoc(s.events, OnStop);
    InlinedMessageAgrees(s, message, stderr);
    RelabelSnoc(s.events, OnStopped);
    var closed := s.(closePending := false, closeAwaiters := [], hasProcess := false,
                     state := Idle, events := s.events + [OnStopped]);
    assert AsInlined(closed) == AsInlined(s).(closePending := false, closeAwaiters := [], hasProcess := false,
                     state := Idle, events := RelabelAll(s.events) + [OnStopped]);
    ResumeAllCommutes(closed, s.closeAwaiters);
  }

  lemma RelabelSnoc(es: seq<Event>, e: Event)
    ensures RelabelAll(es + [e]) == RelabelAll(es) + [Relabel(e)]
  {
    RelabelAppend(es, [e]);
    assert RelabelAll([e]) == [Relabel(e)] + RelabelAll([]);
  }

  lemma InlinedMessageAgrees(s: Snapshot, message: string, stderr: bool)
    requires s.variant == Standalone
    ensures HandleMessageStep(AsInlined(s), message, stderr) == AsInlined(HandleMessageStep(s, message, stderr))
  {
    var logged := s.(events := s.events + [OnMessage(message, stderr)]);
    RelabelSnoc(s.events, OnMessage(message, stderr));
    assert AsInlined(s).(events := AsInlined(s).events + [OnMessage(message, stderr)]) == AsInlined(logged);
    OutcomeCommutes(logged, Classify(s.quitPrompt.Some?, message));
  }

  lemma OutcomeCommutes(logged: Snapshot, o: Outcome)
    requires logged.variant == Standalone
    requires o.QuitPrompt? ==> logged.quitPrompt.Some?
    ensures OutcomeStep(AsInlined(logged), o) == AsInlined(OutcomeStep(logged, o))
  {
    match o
    case QuitPrompt =>
      var t := logged.(quitPrompt := None);
      assert AsInlined(logged).(quitPrompt := None) == AsInlined(t);
      ResumeCommutes(SendLineStep(t, "yes"), logged.quitPrompt.value);
      assert SendLineStep(AsInlined(t), "yes") == AsInlined(SendLineStep(t, "yes"));
    case WorldLoaded =>
      RelabelSnoc(logged.events, OnWorldLoaded);
    case Joined(id, name) =>
      RelabelSnoc(logged.events, OnJoin(id, name));
    case Left(id, name) =>
      RelabelSnoc(logged.events, OnLeave(id, name));
    case Unrecognised =>
  }

  lemma ResumeCommutes(s: Snapshot, caller: StopCaller)
    requires s.variant == Standalone
    ensures AwaitCloseStep(AsInlined(s), caller) == AsInlined(AwaitCloseStep(s, caller))
    ensures ResumeStep(AsInlined(s), caller) == AsInlined(ResumeStep(s, caller))
  {
    RelabelSnoc(s.events, OnStart);
  }

  lemma {:induction false} ResumeAllCommutes(s: Snapshot, callers: seq<StopCaller>)
    requires s.variant == Standalone
    ensures ResumeAllStep(AsInlined(s), callers) == AsInlined(ResumeAllStep(s, callers))
    decreases |callers|
  {
    if callers != [] {
      ResumeCommutes(s, callers[0]);
      ResumeAllCommutes(ResumeStep(s, callers[0]), callers[1..]);
    }
  }

  // ---------------------------------------------------------------------------
  // The supervisor object

  class Manager {
    const variant: Variant
    var state: State
    var hasProcess: bool
    var quitPrompt: Option<StopCaller>
    var closePending: bool
    var closeAwaiters: seq<StopCaller>
    var stdin: seq<string>
    var events: seq<Event>

    function Model(): Snapshot
      reads this
    {
      Snapshot(variant, state, hasProcess, quitPrompt, closePending, closeAwaiters, stdin, events)
    }

    predicate Valid()
      reads this
    {
      Inv(Model())
    }

    constructor (variant: Variant)
      ensures Valid() && Model() == Initial(variant)
    {
      this.variant := variant;
      state := Idle;
      hasProcess := false;
      quitPrompt := None;
      closePending := false;
      closeAwaiters := [];
      stdin := [];
      events := [];
    }

    method SendString(str: string)
      requires Valid()
      modifies this
      ensures Valid() && Model() == SendStringStep(old(Model()), str)
    {
      if hasProcess {
        stdin := stdin + [str];
      }
    }

    method SendLine(line: string)
      requires Valid()
      modifies this
      ensures Valid() && Model() == SendLineStep(old(Model()), line)
    {
      SendString(line + "\n");
    }

    method Start()
      requires Valid()
      modifies this
      ensures Valid() && Model() == StartStep(old(Model()))
    {
      if hasProcess || !CanStart(state) {
        return;
      }
      state := Starting;
      events := events + [OnStart];
      hasProcess := true;
      closePending := true;
      closeAwaiters := [];
    }

    method Stop()
      requires Valid()
      modifies this
      ensures Valid() && Model() == StopStep(old(Model()), Direct)
    {
      StopFor(Direct);
    }

    method Restart()
      requires Valid()
      modifies this
      ensures Valid() && Model() == StopStep(old(Model()), ByRestart)
    {
      StopFor(ByRestart);
    }

    /** The body of `stop()` up to the wait for the quit prompt, called by `caller`. */
    method StopFor(caller: StopCaller)
      requires Valid()
      modifies this
      ensures Valid() && Model() == StopStep(old(Model()), caller)
    {
      if !hasProcess || !CanStop(state) {
        Resume(caller);
        return;
      }
      state := Stopping;
      events := events + [OnStop];
      quitPrompt := Some(caller);
      SendLine("quit");
    }

    /** `stop()` has returned to `caller`. */
    method Resume(caller: StopCaller)
      requires Valid()
      modifies this
      ensures Valid() && Model() == ResumeStep(old(Model()), caller)
    {
      if caller == ByRestart {
        Start();
      }
    }

    /** The continuation of `stop()` once the quit prompt has been seen. */
    method OnQuitPrompt(caller: StopCaller)
      requires Valid()
      modifies this
      ensures Valid() && Model() == QuitPromptStep(old(Model()), caller)
    {
      SendLine("yes");
      if closePending {
        closeAwaiters := closeAwaiters + [caller];
      } else {
        Resume(caller);
      }
    }

    /** One chunk of output from the held process's stdout or stderr. */
    method HandleMessage(message: string, stderr: bool)
      requires Valid() && hasProcess
      modifies this
      ensures Valid() && Model() == HandleMessageStep(old(Model()), message, stderr)
    {
      events := events + [OnMessage(message, stderr)];
      match Classify(quitPrompt.Some?, message)
      case QuitPrompt =>
        var caller := quitPrompt.value;
        quitPrompt := None;
        OnQuitPrompt(caller);
      case WorldLoaded =>
        state := Running;
        events := events + [WorldLoadedEvent(variant)];
      case Joined(id, name) =>
        events := events + [OnJoin(id, name)];
      case Left(id, name) =>
        events := events + [OnLeave(id, name)];
      case Unrecognised =>
    }

    /** The held process has closed. */
    method HandleClose()
      requires Valid()
      modifies this
      ensures Valid() && Model() == HandleCloseStep(old(Model()))
    {
      var waiting := closeAwaiters;
      closePending := false;
      closeAwaiters := [];
      hasProcess := false;
      state := Idle;
      events := events + [OnStopped];
      ResumeAll(waiting);
    }

    method ResumeAll(callers: seq<StopCaller>)
      requires Valid() && closeAwaiters == []
      modifies this
      ensures Valid() && Model() == ResumeAllStep(old(Model()), callers)
      decreases |callers|
    {
      if callers != [] {
        Resume(callers[0]);
        ResumeAll(callers[1..]);
      }
    }
  }
}
