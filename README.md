# Craftopia dedicated-server supervisor, modelled in Dafny

The repository runs a Craftopia dedicated server behind a Discord bot. This
project models the logic of that repository:

- **The supervisor** (`CraftopiaServerManager`). This is a four-state machine:
  `idle`, `starting`, `running`, `stopping`.
  - It starts the server process.
  - It classifies each chunk the process prints: the quit prompt, the
    world-loaded marker, or an `ActiveSlave:` player record.
  - It shuts the server down with a two-step handshake over stdin: `quit`,
    then, once the prompt appears, `yes`. After that it waits for the process
    to close.
  - The copy of the class inlined in `main.ts` is modelled as a variant. Its
    only difference is that it calls `onStarted` where the standalone class
    calls `onWorldLoaded`.
- **The chat bot** (`main.ts`). It takes a command out of a message that
  mentions the bot and dispatches `help`, `start`, `restart` and `stop`
  according to the supervisor's guards. It keeps the roster of player names,
  updated by joins and leaves, and formats the player-list message in the key
  order JavaScript's `Object.keys` gives.
- **The settings file** (`CraftopiaServerSetting`). This part covers:
  - `read`'s line loop,
  - `write`'s replacement of the first `key=` line, which is a multiline
    regular expression whose replacement string expands `$` patterns,
  - the enumerated-setting tables and their lookups,
  - `setEnum` and `setName`.
- **The console colouring** of log lines (`colored`).

Files:

- `options.dfy`: `Option`.
- `text.dfy`: prefixes, JavaScript's `\s`, `\w` and line terminators,
  `split`, and decimal printing.
- `classifier.dfy`: the output markers, the `activeSlaveRe` matcher, and the
  classification of one chunk.
- `server_manager.dfy`: the supervisor. It has three parts:
  - `Snapshot`, the supervisor's whole state as a value.
  - The `...Step` functions, which give the effect of each operation.
  - Class `Manager`. Its fields are updated in place, and each method is
    proved to have the effect of its step function.
- `chat_bot.dfy`: the command body, the dispatch, the roster, and class `Bot`,
  which wires the supervisor's callbacks to channel posts.
- `server_setting.dfy`: `read`, `write`, the enum tables, `setEnum` and
  `setName`.
- `colored.dfy`: `colored`.

`stop()` is asynchronous. The model cuts it at its `await`s:

1. `Stop` runs up to the wait for the quit prompt. It leaves its continuation
   in the quit-prompt slot. `StopCaller` records whether the call came from
   `restart()`.
2. `OnQuitPrompt` is that continuation. It writes `yes`, then waits on
   `closed`.
3. `HandleClose` resolves `closed` and resumes the suspended calls. A
   `restart()` among them then starts the server again.

A write to stdin is taken to complete at once.

## Model

| member | source | states |
|---|---|---|
| `ServerManager.Capabilities` | CraftopiaServerManager.ts:28-69 | each guard decides whether its operation takes effect: `start` changes the state exactly when `canStart` holds, `stop` exactly when `canStop` holds, and `restart` exactly when `canRestart` or `canStart` holds, since a refused stop inside `restart` falls through to `start` |
| `ServerManager.SendStringStep` | CraftopiaServerManager.ts:75-80 | a write keeps the invariant: a process is held exactly when not idle, and exactly while its close is awaited |
| `ServerManager.StartStep` | CraftopiaServerManager.ts:32-45 | `start` keeps the process/state invariant |
| `ServerManager.StopStep` | CraftopiaServerManager.ts:51-60 | `stop` up to its first suspension keeps the invariant |
| `ServerManager.HandleMessageStep` | CraftopiaServerManager.ts:84-103 | handling a chunk from the held process keeps the invariant |
| `ServerManager.HandleCloseStep` | CraftopiaServerManager.ts:105-111 | after a close the invariant holds, whatever the state before |
| `ServerManager.StartContract` | CraftopiaServerManager.ts:32-45 | `start` is a no-op when a process is held or the state is not idle; otherwise the state becomes `starting`, `onStart` fires once, a process is held, its close is awaited, and nothing is written |
| `ServerManager.StopContract` | CraftopiaServerManager.ts:51-60 | `stop` is a no-op unless a process is held and the state is running; otherwise the state becomes `stopping`, `onStop` fires, the quit-prompt waiter is registered, and exactly `"quit\n"` is written |
| `ServerManager.SendLineStep` | CraftopiaServerManager.ts:71-80 | `sendLine(l)` writes exactly `l + "\n"` while a process is held, writes nothing otherwise, changes nothing else, and keeps the invariant |
| `ServerManager.ResumeStep` | CraftopiaServerManager.ts:66-69 | a `stop()` that returns writes nothing, leaves the quit-prompt waiter alone, only appends events, and keeps the invariant |
| `ServerManager.AwaitCloseStep` | CraftopiaServerManager.ts:59 | waiting on `closed` while the close is pending parks the caller last in the queue and fires nothing; it never writes or touches the quit-prompt waiter |
| `ServerManager.QuitPromptStep` | CraftopiaServerManager.ts:57-59 | the continuation after the prompt writes exactly `"yes\n"` while a process is held, then parks the caller on a pending close, firing nothing |
| `ServerManager.ResumeAllStep` | CraftopiaServerManager.ts:59 | resuming the parked calls writes nothing, only appends events, and with the queue emptied keeps the invariant |
| `ServerManager.MessageReportedFirst` | CraftopiaServerManager.ts:84-85 | every chunk is first reported to `onMessage` with its stderr flag, before any classification |
| `ServerManager.QuitPromptBranch` | CraftopiaServerManager.ts:86-88 | with a waiter pending and a chunk starting with the prompt, the waiter is cleared, `"yes\n"` is written, no other event fires, and the stop call goes on to await the close |
| `ServerManager.OnlyPromptWritesYes` | CraftopiaServerManager.ts:86-102 | with no waiter pending, or for a chunk not starting with the prompt, handling a chunk writes nothing and leaves the waiter as it is |
| `ServerManager.PromptResolvesOnce` | CraftopiaServerManager.ts:86-88 | once the prompt has resolved the waiter, no later chunk, the same prompt included, writes or resolves anything |
| `ServerManager.WorldLoadedBranch` | CraftopiaServerManager.ts:89-91 | every chunk starting with `World is loaded!` sets the state to running and fires the world-loaded event, every time, and never `onStart` |
| `ServerManager.PresenceBranch` | CraftopiaServerManager.ts:92-101 | otherwise the first `ActiveSlave:` record in the chunk fires `onJoin` (for `True`) or `onLeave` (for `False`) with its id and name; a chunk that matches nothing fires no event; the state is unchanged |
| `ServerManager.OnlyCloseReturnsToIdle` | CraftopiaServerManager.ts:105-111 | from a non-idle state, no operation other than `handleClose` reaches idle |
| `ServerManager.CloseContract` | CraftopiaServerManager.ts:105-111 | `handleClose` resolves the close, drops the process, goes idle and fires `onStopped` once; if a `restart()` was waiting, it then starts the server again |
| `ServerManager.ResumeAfterClose` | CraftopiaServerManager.ts:66-69 | after a close, the first waiting `restart()` starts the server; every other resumed call does nothing |
| `ServerManager.FullCycle` | CraftopiaServerManager.ts:32-111 | a fresh supervisor driven through start, world loaded, stop, prompt and close passes through idle, starting, running, stopping, idle; it writes `"quit\n"` then `"yes\n"`, and fires each callback once, in order |
| `ServerManager.RestartCycle` | CraftopiaServerManager.ts:66-69 | `restart()` from running runs the same handshake and starts again once the process has closed |
| `ServerManager.RestartWhenIdleStarts` | CraftopiaServerManager.ts:66-69 | `restart()` when idle is not refused: its `stop()` returns at once and `start()` runs |
| `ServerManager.JoinThenLeave` | CraftopiaServerManager.ts:92-101 | a join record followed by the matching leave record fires exactly one join and then one leave, with the same id and name |
| `ServerManager.InlinedCopyAgrees` | main.ts:18-125 | the copy in `main.ts` commutes with every operation of the standalone class, once its events are relabelled `onWorldLoaded` to `onStarted` |
| `ServerManager.Manager.constructor` | CraftopiaServerManager.ts:5-26 | a new supervisor is idle, holds no process and no waiter, and has written and reported nothing |
| `ServerManager.Manager.SendString` | CraftopiaServerManager.ts:75-80 | the new state is `SendStringStep` of the old one |
| `ServerManager.Manager.SendLine` | CraftopiaServerManager.ts:71-73 | the new state is `SendLineStep` of the old one |
| `ServerManager.Manager.Start` | CraftopiaServerManager.ts:32-45 | the new state is `StartStep` of the old one, and the invariant is kept |
| `ServerManager.Manager.Stop` | CraftopiaServerManager.ts:51-56 | the new state is `StopStep` of the old one for a direct caller |
| `ServerManager.Manager.Restart` | CraftopiaServerManager.ts:66-69 | the new state is `StopStep` of the old one for a `restart()` caller |
| `ServerManager.Manager.StopFor` | CraftopiaServerManager.ts:51-56 | guard, `stopping`, `onStop`, waiter registration and `"quit\n"`, in that order |
| `ServerManager.Manager.Resume` | CraftopiaServerManager.ts:66-69 | a returning `stop()` starts the server only when `restart()` called it |
| `ServerManager.Manager.OnQuitPrompt` | CraftopiaServerManager.ts:57-59 | the continuation writes `"yes\n"`, then parks on `closed`, or returns if the process has already closed |
| `ServerManager.Manager.HandleMessage` | CraftopiaServerManager.ts:84-103 | the new state is `HandleMessageStep` of the old one |
| `ServerManager.Manager.HandleClose` | CraftopiaServerManager.ts:105-111 | the new state is `HandleCloseStep` of the old one |
| `ServerManager.Manager.ResumeAll` | CraftopiaServerManager.ts:59 | the `stop()` calls parked on `closed` resume in the order they parked |
| `Classifier.MatchPresence` | CraftopiaServerManager.ts:82 | a line the pattern accepts is exactly the printed form of a record with a word-character id and a name free of line terminators |
| `Classifier.PresenceRoundTrip` | CraftopiaServerManager.ts:82 | every such record, printed as a line, is matched back to itself |
| `Classifier.FirstPresence` | CraftopiaServerManager.ts:82 | finds no record exactly when no line holds one; a record it finds is the one on the first line that holds any |
| `Classifier.FindPresence` | CraftopiaServerManager.ts:82 | `exec` on a chunk finds nothing exactly when no line between line terminators holds a record; otherwise it finds a well-formed record printed on the first such line |
| `Classifier.Classify` | CraftopiaServerManager.ts:86-101 | a chunk is a quit prompt exactly when a waiter is pending and it starts with the prompt; it is world-loaded exactly when it starts with the marker; otherwise it is a join or leave exactly when the first record in it says `True` or `False`, with that record's id and name |
| `Classifier.MarkersExclusive` | CraftopiaServerManager.ts:86-89 | no chunk starts with both markers |
| `Classifier.ClassifyPresenceLine` | CraftopiaServerManager.ts:92-101 | a chunk that is one record is classified as that record's join or leave |
| `Colored.Colored` | colored.ts:3-8 | the text is kept and always bold; `>` gives white, then `WARNING:` gives yellow, then `ERROR:` gives red, and anything else is blue |
| `Colored.ColourOfPrefix` | colored.ts:3-8 | each colour is chosen exactly when its own prefix is present, so exactly one applies |
| `ChatBot.MentionEnd` | main.ts:139 | finds the first `>` when no line terminator comes before it, and finds nothing otherwise |
| `ChatBot.CommandBody` | main.ts:139 | the body is a suffix of the content: everything up to the first `>` on the first line is removed, with the white space after it; with no such `>` the content is unchanged |
| `ChatBot.CommandBodyOfMention` | main.ts:139 | a mention, white space and a command yield exactly the command |
| `ChatBot.Command` | main.ts:137-161 | a message that does not mention the bot gets no action and no reply; an action is taken only for a mentioned `start`, `restart` or `stop` |
| `ChatBot.MentionGate` | main.ts:138-139 | for every content: without a mention of the bot, nothing is done; with one, the response is the dispatch of the command body, and with no `>` on the first line, of the whole content |
| `ChatBot.MentionedCommand` | main.ts:138-139 | a message `<@id>`, white space, then a command, that mentions the bot, is dispatched on exactly that command |
| `ChatBot.Dispatch` | main.ts:140-160 | `help` replies `start, stop, restart`; `start`, `restart` and `stop` invoke their operation exactly when its guard holds, and otherwise reply `Cannot <verb>! Server is <state>`; any other body does nothing |
| `ChatBot.Perform` | main.ts:142-159 | an invoked operation keeps the supervisor invariant and only appends events |
| `ChatBot.CommandTakesEffect` | main.ts:142-159 | an allowed `start` fires `onStart`; an allowed `restart` or `stop` fires `onStop` and moves to `stopping`; a refusal changes nothing |
| `ChatBot.StartCommandFlow` | main.ts:142-147 | `start` on an idle server starts it and the bot posts `server starting`; on a running server it replies `Cannot start! Server is running` |
| `ChatBot.ObjectKeysOrder` | main.ts:175 | `Object.keys` lists every key once: array-index keys first in ascending order, then the other keys in insertion order |
| `ChatBot.AddName` | main.ts:184 | a join appends a new name at the end and keeps the roster free of repeats; a name already present, or `__proto__`, leaves the roster as it was |
| `ChatBot.RemoveName` | main.ts:190 | a leave removes exactly that name and keeps the roster free of repeats; the other names keep their order, the one occurrence is cut out in place, and an absent name changes nothing |
| `ChatBot.PlayersMessage` | main.ts:174-181 | the message is `<k> users: [n1], [n2], ... playing`, where k is the number of names on the roster and the names come in `Object.keys` order |
| `ChatBot.PlayersListed` | main.ts:174-181 | the list names exactly the players on the roster, each once |
| `ChatBot.React` | main.ts:183-209 | the callbacks keep the roster free of repeats and only append posts |
| `ChatBot.ReactAllKeepsRoster` | main.ts:183-193 | over any sequence of events, the roster keeps each name once and posts are only appended |
| `ChatBot.JoinAndLeave` | main.ts:183-193 | a join puts the name on the roster and posts `[name] joined` and the player list; a leave takes it off and posts `[name] leaved` and the list; the id is ignored, and join followed by leave equals a plain removal |
| `ChatBot.Bot.constructor` | main.ts:172 | the roster starts empty |
| `ChatBot.Bot.SendCurrentPlayers` | main.ts:174-181 | posts the player-list message for the current roster and changes nothing else |
| `ChatBot.Bot.Joined` | main.ts:183-187 | the new bot state is the reaction to a join |
| `ChatBot.Bot.Left` | main.ts:189-193 | the new bot state is the reaction to a leave |
| `ChatBot.Bot.ReactTo` | main.ts:183-209 | the new bot state is the reaction to the event |
| `ChatBot.Bot.ReactToAll` | main.ts:183-209 | the new bot state is the reactions to the events, in order |
| `ChatBot.Bot.Invoke` | main.ts:142-159 | the supervisor's new state is the effect of the invoked action |
| `ChatBot.Bot.MessageCreate` | main.ts:137-161 | the reply goes to the message's channel, the operation runs on the supervisor, and every event it fires is posted in order |
| `ChatBot.Bot.DeliverOutput` | main.ts:54-55 | a chunk of output reaches the supervisor, and every event it fires is posted in order |
| `ChatBot.Bot.DeliverClose` | main.ts:57 | the process closes, and the events fired are posted in order |
| `Text.JoinSplit` | CraftopiaServerSetting.ts:38 | splitting on `"\n"` and joining back gives the text |
| `Text.SplitJoin` | CraftopiaServerSetting.ts:38 | joining lines free of `"\n"` and splitting again gives the lines |
| `Text.DecimalValueOfNatToString` | CraftopiaServerSetting.ts:85 | the decimal text `toString` prints denotes the number |
| `ServerSetting.Parse` | CraftopiaServerSetting.ts:34-47 | the map holds every key but `__proto__` that a kept line gives, and maps it to the value of the last such line |
| `ServerSetting.Read` | CraftopiaServerSetting.ts:34-47 | the loop over the lines returns the map `Parse` defines |
| `ServerSetting.ParseMeaning` | CraftopiaServerSetting.ts:38-44 | comment lines and lines without `=` are skipped; a key maps to the text between the first and second `=` of the last kept line with that key; `__proto__` is never set |
| `ServerSetting.FirstMatchSpec` | CraftopiaServerSetting.ts:99 | `^key=` in multiline mode matches at the leftmost line start followed by `key=`, and only there |
| `ServerSetting.LineEndSpec` | CraftopiaServerSetting.ts:99 | `.*$` extends the match to the next line terminator |
| `ServerSetting.Substitute` | CraftopiaServerSetting.ts:98-101 | a replacement string with no `$` expands to itself |
| `ServerSetting.Replace` | CraftopiaServerSetting.ts:98-101 | with no match the text is returned unchanged; otherwise the text before the matched line and after its end is kept; without `$` the replacement is taken literally |
| `ServerSetting.Write` | CraftopiaServerSetting.ts:94-103 | with no line starting with `key=` the text is unchanged; otherwise the text before that line and after its end is kept, and without `$` the line becomes `key=value` literally |
| `ServerSetting.ReplaceFirstNone` | CraftopiaServerSetting.ts:98-101 | with no line starting with the pattern, no line changes |
| `ServerSetting.ReplaceFirstAt` | CraftopiaServerSetting.ts:98-101 | only the first line starting with the pattern is replaced, and every other line is kept |
| `ServerSetting.WriteReplacesFirstLine` | CraftopiaServerSetting.ts:94-103 | `write(key, value)` rewrites exactly the first line beginning with `key=` to `key=value` and keeps all other text |
| `ServerSetting.WriteWithoutLine` | CraftopiaServerSetting.ts:94-103 | with no line beginning with `key=`, `write` returns the text unchanged |
| `ServerSetting.ReadAfterWrite` | CraftopiaServerSetting.ts:94-103 | round trip: with exactly one line starting with `key=` and a value free of `=`, `$` and newlines, after `write` the file reads as before with `key` mapped to `value` |
| `ServerSetting.WriteExpandsDollar` | CraftopiaServerSetting.ts:98-101 | a `$&` in the value is expanded to the replaced line |
| `ServerSetting.ReadExpandedDollar` | CraftopiaServerSetting.ts:98-101 | so the value read back is then not the value written |
| `ServerSetting.ReadKeepsCarriageReturn` | CraftopiaServerSetting.ts:38-101 | in a `\r\n` file, `write` keeps the `\r` that ends the line, and `read` returns every value, the written one included, with that `\r` after it |
| `ServerSetting.PossibleEnumValues` | CraftopiaServerSetting.ts:49-54 | for a table key, exactly the table's names; for an inherited property, no names; for any other key, the call fails |
| `ServerSetting.NameOfInverts` | CraftopiaServerSetting.ts:64-69 | in a table with distinct names and values, finding a value's name inverts looking up a name's value |
| `ServerSetting.EnumTables` | CraftopiaServerSetting.ts:11-77 | `isEnumKey` holds exactly for `difficulty` and `gameMode`; `getEnumValue` returns the unique name with that value, and nothing for an unknown key or value; `canSetEnum` holds exactly for a table key and one of its names |
| `ServerSetting.SetEnum` | CraftopiaServerSetting.ts:81-88 | when `canSetEnum` is false, the text is unchanged |
| `ServerSetting.ReadAfterSetEnum` | CraftopiaServerSetting.ts:81-88 | otherwise the named number is written under `difficulty`, whatever key was given |
| `ServerSetting.SetGameModeWritesDifficulty` | CraftopiaServerSetting.ts:81-88 | `setEnum("gameMode", "CreativeWorld_Play")` is `write("difficulty", "3")` |
| `ServerSetting.SetGameModeKeepsGameMode` | CraftopiaServerSetting.ts:81-88 | after that call the file still reads the old game mode and has difficulty 3 |
| `ServerSetting.SetEnumUnderKey` | CraftopiaServerSetting.ts:81-88 | the corrected `setEnum` also changes nothing when `canSetEnum` is false |
| `ServerSetting.ReadAfterSetEnumUnderKey` | CraftopiaServerSetting.ts:81-88 | the corrected `setEnum` sets the given key to the named number |
| `ServerSetting.SetName` | CraftopiaServerSetting.ts:90-92 | with no `name=` line the text is unchanged; without `$` in the name, the first `name=` line becomes `name=<name>` |
| `ServerSetting.ReadAfterSetName` | CraftopiaServerSetting.ts:90-92 | after `setName`, the file reads as before with `name` set |

## Left out

- Starting the process (`execFile`, the executable path, the working directory), the stream listeners and the `close` listener are left out. The model takes a started process as given. Output chunks and the close are calls the host makes (`DeliverOutput`, `DeliverClose`).
- The code has no spawn-failure handling, no shutdown timeout or forced kill, and no configurable shutdown command, so the model has none either.
- Stdin writes complete at once. The error path of `stdin.write`, a rejected promise, is not modelled. Neither is any interleaving of the asynchronous continuations other than the one described above.
- The code classifies each output chunk whole: its marker tests look only at the start of the chunk, and only the player-record pattern looks at inner lines. The model does the same.
- `ServerManager.Manager.HandleMessage`: requires a held process, because the stream listeners exist only while one is held.
- The Discord transport is left out: `createBot`, `startBot`, the `ready` event, the cache plugins and `sendMessage`. Posts are appended to a sequence. User and channel ids are `nat`.
- The `onMessage` console and log-file output (`main.ts:211-221`) is left out. It is I/O plus a clock, so the bot ignores `OnMessage`.
- File access in the settings class is left out: `readFileSync`, `writeFileSync`, the text encoders, `path.join`. Every operation takes the file's contents as a string.
- `Write`: a key is treated literally. A key holding regular-expression syntax, which the source puts into the pattern unescaped, is outside what the lemmas cover (`RegexLiteral`).
- `ServerSetting.ReadAfterWrite`: assumes the text uses `"\n"` as its only line terminator (`OnlyNewlines`). With `"\r\n"` line ends every value read keeps a trailing `\r` (`ReadKeepsCarriageReturn`). It also assumes a value free of `$`, `=` and newlines, and a key that `read` neither splits nor takes for a comment.
- `ServerSetting.WriteReplacesFirstLine`: assumes `"\n"`-only text (`OnlyNewlines`); with `"\r\n"` line ends the replaced line keeps its `\r` (`ReadKeepsCarriageReturn`).
- `ServerSetting.WriteWithoutLine`: assumes `"\n"`-only text (`OnlyNewlines`), so that lines as `read` splits them are the lines `^` starts.
- `ServerSetting.SetGameModeKeepsGameMode`: assumes `"\n"`-only text (`OnlyNewlines`); with `"\r\n"` line ends the values read keep a trailing `\r` (`ReadKeepsCarriageReturn`).
- `ServerSetting.ReadAfterSetEnumUnderKey`: assumes `"\n"`-only text (`OnlyNewlines`); with `"\r\n"` line ends the number reads back with a trailing `\r` (`ReadKeepsCarriageReturn`).
- `ServerSetting.ReadAfterSetEnum`: assumes `"\n"`-only text (`OnlyNewlines`); with `"\r\n"` line ends the number reads back with a trailing `\r` (`ReadKeepsCarriageReturn`).
- `ServerSetting.ReadAfterSetName`: assumes `"\n"`-only text (`OnlyNewlines`); with `"\r\n"` line ends the name reads back with a trailing `\r` (`ReadKeepsCarriageReturn`).
- `CanSetEnum`: looks only at the tables' own names. In the source, an inherited property such as `toString` (or, for the key `constructor`, `name`) makes `canSetEnum` true, and `setEnum` then writes that property's text. Modelling this would need the text of built-in functions.
- `CraftopiaServerUpdater.ts`, `CraftopiaWorldSaveDataHandler.ts`, `CraftopiaWorldSaveData.ts` and `CraftopiaWorldSaves.ts` are not part of this model. They cover the steamcmd subprocess, gzip and JSON decoding, type declarations and directory listing.
- The `colored` colour functions come from a foreign module. They are represented by a colour tag and a bold flag.

## Findings

| source | as written | input that shows it | evidently intended | confidence | as-written member | corrected member |
|---|---|---|---|---|---|---|
| CraftopiaServerSetting.ts:81-88 | `setEnum` writes the named number under `difficulty` for every key | `setEnum("gameMode", "CreativeWorld_Play")` sets `difficulty=3` and leaves `gameMode` as it was | write under the key that was given | high; not executed | `ServerSetting.SetGameModeKeepsGameMode` | `ServerSetting.ReadAfterSetEnumUnderKey` |
