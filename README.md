# Code runner client session, in Dafny

This project models the browser side of a code runner. The client sends a program over a WebSocket. It then shows the program's output in an xterm terminal and forwards what the user types as the program's standard input. The model covers two files.

- `frontend/src/types/index.ts` holds the wire vocabulary:
  - the seven message kinds and four languages, with their strings;
  - the `RunnerMessage` record and its four constructors;
  - the two limits (180 seconds per connection, 100000 code units of output);
  - the starter templates.
- `frontend/src/hooks/useRunner.ts` holds the session. `setupWebSocket` keeps it in closure variables:
  - the pending input line and its cursor;
  - the "waiting for the server" and "connected" flags;
  - the IME flags;
  - the FIFO queue of lines typed while waiting;
  - the running output count.

  The handlers update this state step by step: WebSocket open, close, error and message; terminal data; composition start and end. `startRunner` adds a one-second watchdog interval.

Modules:

- `Types` (Types.dfy): datatypes and pure constructors.
  - Strings that the code measures or indexes are sequences of UTF-16 code units (`Text`), because JavaScript's `length`, `charCodeAt` and `substring` count code units.
  - `Frame` is the object form of a message, as `JSON.parse` returns it: the kind and language are plain strings.
- `LineEditor` (LineEditor.dfy) holds the pure parts of the session:
  - the full-width test;
  - the pending line as an `Editor` value, with each edit and the escape sequences it echoes;
  - splitting on `\r\n|\r|\n` and filtering empty lines;
  - `Route`, which picks the `onData` branch that a piece of input takes;
  - `Shift`, a small column model (how far a written sequence moves the terminal cursor along the row). It is used to state that each echo keeps the terminal cursor over the buffer cursor, except the middle-of-line backspace over a full-width unit (see Findings). Widths come from the code's own full-width table, so this is agreement with that table, not with the cells a terminal draws.
- `Runner` (Runner.dfy) holds the state-changing part, as classes.
  - `Channel` is the WebSocket: its `readyState` and the log of messages sent. `Send` requires `Open`, as every send in the source is guarded by that test or happens in `onopen`.
  - `Terminal` is the xterm terminal, as the log of calls to `write` and `writeln`. Each fixed message line is a `Notice`.
  - `Session` has one field per closure variable and one method per helper and handler. Each method states the whole new state in terms of the `LineEditor` functions.
  - `Watchdog` is the interval: one `Tick` per firing.
- `Scenarios` (Scenarios.dfy) drives whole runs on fresh objects and states what each run leaves behind.

Four behaviours of the code are easy to misread; the model keeps them as written:
- An `echo` frame returns before the unblock-and-drain step, so it does not end the wait. The `ECHO` test inside that step can never be true.
- Once the output total is over the limit, every further stdout or stderr frame sends another exit message; there is no guard that sends it once.
- A paste submits the whole current line with the first segment inserted at the cursor, not the first segment alone.
- A paste queues only the non-empty segments after the first, so a paste with N breaks can queue fewer than N lines.

## Model

| member | source | states |
|---|---|---|
| Types.ParseType | frontend/src/types/index.ts:3-11 | A received `type` string decodes to a kind only if it is exactly that kind's wire string. |
| Types.ParseTypeName | frontend/src/types/index.ts:3-11 | Every kind decodes from its own wire string. |
| Types.TypeNameInjective | frontend/src/types/index.ts:3-11 | Two kinds have the same wire string if and only if they are the same kind. |
| Types.ParseLanguage | frontend/src/types/index.ts:13-18 | A language string decodes to a language only if it is exactly that language's string. |
| Types.ParseLanguageName | frontend/src/types/index.ts:13-18 | Every language decodes from its own string. |
| Types.LanguageNameInjective | frontend/src/types/index.ts:13-18 | Two languages have the same string if and only if they are the same language. |
| Types.FrameRoundTrip | frontend/src/types/index.ts:20-27 | Every message survives the trip to its object form and back. A frame that reads back as a message is exactly that message's frame. |
| Types.CreateRunnerMessage | frontend/src/types/index.ts:77-85 | All five optional fields are copied unchanged. The kind is the argument's, unless the partial message supplies one; the spread comes last, so that one wins. |
| Types.CreateCompileMessage | frontend/src/types/index.ts:87-95 | A `code` message carrying the language and the source, and no other field. |
| Types.CreateInputMessage | frontend/src/types/index.ts:97-99 | An `input` message carrying the data, and no other field. |
| Types.CreateExitMessage | frontend/src/types/index.ts:101-103 | An `exit` message with no field besides its kind. |
| Types.DefaultTemplate | frontend/src/types/index.ts:46-74 | Every language has a non-empty starter program, so the lookup is total. |
| LineEditor.IsFullWidth | frontend/src/hooks/useRunner.ts:187-197 | Only a non-empty string whose first code unit lies between U+1100 and U+FFE6 can be full-width; in particular ASCII and Latin text never is. |
| LineEditor.FullWidthByTable | frontend/src/hooks/useRunner.ts:187-197 | A string is full-width exactly when it is non-empty and its first code unit lies in one of the five inclusive blocks. The empty string is not full-width. |
| LineEditor.Insert | frontend/src/hooks/useRunner.ts:210-228 | After inserting, the text left of the cursor is the old left part plus the inserted text, and the text right of the cursor is unchanged. This holds in both branches, so the cursor stays within the line. |
| LineEditor.InsertConcat | frontend/src/hooks/useRunner.ts:210-228 | Inserting two pieces one after the other is the same as inserting their concatenation. |
| LineEditor.Backspace | frontend/src/hooks/useRunner.ts:230-254 | At cursor 0 nothing changes. Otherwise one code unit leaves the left part and the right part is unchanged. |
| LineEditor.BackspaceRemovesOne | frontend/src/hooks/useRunner.ts:249-253 | Backspace lowers the cursor and the length by one and removes exactly the unit left of the cursor (as multisets), whatever its width. |
| LineEditor.BackspaceUndoesInsert | frontend/src/hooks/useRunner.ts:210-254 | A backspace undoes the insertion of one code unit. |
| LineEditor.TypeThenEraseRestores | frontend/src/hooks/useRunner.ts:210-254 | Typing any text and then as many backspaces as it has code units restores the line and the cursor. |
| LineEditor.MoveLeft | frontend/src/hooks/useRunner.ts:399-412 | The cursor moves one left only when it is above 0. The buffer never changes. |
| LineEditor.MoveRight | frontend/src/hooks/useRunner.ts:414-427 | The cursor moves one right only when it is below the length. The buffer never changes. |
| LineEditor.ArrowsInverse | frontend/src/hooks/useRunner.ts:399-427 | Left then right, and right then left, give back the editor wherever the first move happens. |
| LineEditor.InsertEcho | frontend/src/hooks/useRunner.ts:213-220 | The echo of printable inserted text, written as it stands at the end of the line or wrapped in insert mode in the middle, moves the terminal cursor by the text's width. |
| LineEditor.BackspaceEcho | frontend/src/hooks/useRunner.ts:236-247 | The backspace echo as written: nothing at cursor 0; at the end of the line the terminal cursor moves back by the deleted unit's width; in the middle of the line it moves back exactly one cell whatever that width. |
| LineEditor.CorrectedBackspaceEcho | frontend/src/hooks/useRunner.ts:236-247 | The intended echo: nothing at cursor 0, and otherwise the terminal cursor moves back by the deleted unit's width, in the middle of the line as at its end. |
| LineEditor.BackspaceEchoesDiffer | frontend/src/hooks/useRunner.ts:243-247 | The echo as written and the intended one differ exactly for a backspace in the middle of the line over a full-width unit. |
| LineEditor.MoveLeftEcho | frontend/src/hooks/useRunner.ts:406-409 | Nothing is written at cursor 0; otherwise the terminal cursor moves left by the width of the unit the cursor crosses. |
| LineEditor.MoveRightEcho | frontend/src/hooks/useRunner.ts:421-424 | Nothing is written at the end of the line; otherwise the terminal cursor moves right by the width of the unit the cursor crosses. |
| LineEditor.InsertKeepsColumn | frontend/src/hooks/useRunner.ts:210-228 | The insertion echo, at the end or in insert mode, moves the terminal cursor by exactly the width of printable inserted text. |
| LineEditor.ArrowsKeepColumn | frontend/src/hooks/useRunner.ts:399-427 | Each arrow echo (one or two cursor moves) moves the terminal cursor by the width of the unit it crosses. |
| LineEditor.CorrectedBackspaceKeepsColumn | frontend/src/hooks/useRunner.ts:230-247 | With the corrected echo, backspace moves the terminal cursor back by the width of the deleted unit, at the end of the line and in the middle. |
| LineEditor.BackspaceEchoDrifts | frontend/src/hooks/useRunner.ts:243-247 | As written, backspace in the middle of a line, after a full-width unit, moves the terminal cursor back one cell where two were deleted. |
| LineEditor.SplitLines | frontend/src/hooks/useRunner.ts:257 | Splitting gives at least one segment, and no segment contains a break. |
| LineEditor.JoinSplitLines | frontend/src/hooks/useRunner.ts:257 | Joining the segments with LF gives back the input with every break normalised to LF. Splitting loses nothing but the kind of each break. |
| LineEditor.SplitLinesCount | frontend/src/hooks/useRunner.ts:257 | There is one more segment than there are breaks; CR LF counts once. |
| LineEditor.SplitLinesNoBreak | frontend/src/hooks/useRunner.ts:257 | Text without a break is a single segment. |
| LineEditor.SplitLinesAfterLine | frontend/src/hooks/useRunner.ts:257 | A break-free line followed by LF splits off as the first segment. |
| LineEditor.NonEmptyLines | frontend/src/hooks/useRunner.ts:268 | The filter keeps only non-empty lines, each taken from its input, and never adds any. |
| LineEditor.NonEmptyLinesAppend | frontend/src/hooks/useRunner.ts:268 | Filtering distributes over concatenation, so lines keep their order. |
| LineEditor.NonEmptyLinesKeepsAll | frontend/src/hooks/useRunner.ts:268 | A list of non-empty lines passes the filter unchanged. |
| LineEditor.PasteEditor | frontend/src/hooks/useRunner.ts:256-264 | The submitted line is the whole buffer with the first segment inserted at the cursor: left part, then segment, then right part. |
| LineEditor.PasteThreeLines | frontend/src/hooks/useRunner.ts:256-270 | Pasting "one\ntwo\nthree" into an empty line submits "one" and queues "two" then "three". |
| LineEditor.EnterSubmitsBuffer | frontend/src/hooks/useRunner.ts:387-390 | A lone CR takes the paste path. It submits the buffer as it stands, echoes nothing before the empty line, and queues nothing. |
| LineEditor.PasteQueuesAfterBreaks | frontend/src/hooks/useRunner.ts:266-269 | There are as many segments after the first as there are breaks; the paste queues the non-empty ones. |
| LineEditor.Route | frontend/src/hooks/useRunner.ts:362-433 | Each branch is taken if and only if the conditions that lead to it hold, in the order of the chain. Not connected: ignored. Connected and exactly Ctrl+C: interrupt. Otherwise, waiting: queue the non-empty segments if the input has a break, nothing if not; every queued line is non-empty and break-free. Otherwise, composing or the text just composed: dropped. Otherwise, on a live session: paste when the input has a break; erase for exactly BS or DEL; the arrows for exactly their sequences; typing for one unit that is not a break, BS, DEL or ESC; and dropped for everything else. |
| Runner.Session.constructor | frontend/src/hooks/useRunner.ts:161-177 | All state starts empty or false, the connecting notice is written, and a fresh channel is connecting with nothing sent. |
| Runner.Session.SendExit | frontend/src/hooks/useRunner.ts:179-185 | An exit message and its notice go out only when the channel is open; otherwise nothing changes. |
| Runner.Session.ProcessLine | frontend/src/hooks/useRunner.ts:199-208 | On an open channel, exactly one input message with the line plus LF is sent, and the session waits with an empty line and no composed text. On any other channel nothing changes. |
| Runner.Session.HandleTextInput | frontend/src/hooks/useRunner.ts:210-228 | The new line and cursor are `Insert` of the old ones. The writes are the insertion echo. No flag or queue changes. |
| Runner.Session.HandleBackspace | frontend/src/hooks/useRunner.ts:230-254 | The new line and cursor are `Backspace` of the old ones. The writes are `BackspaceEcho`: the erase sequence for the unit's width at the end of the line, and a single BS followed by a delete of one or two cells in the middle, whatever the width (see Findings). |
| Runner.Session.ArrowLeft | frontend/src/hooks/useRunner.ts:399-412 | The new editor is `MoveLeft` of the old one; the writes are one cursor-left per cell crossed. |
| Runner.Session.ArrowRight | frontend/src/hooks/useRunner.ts:414-427 | The new editor is `MoveRight` of the old one; the writes are one cursor-right per cell crossed. |
| Runner.Session.HandlePaste | frontend/src/hooks/useRunner.ts:256-270 | The first segment's echo and an empty line are written, and the whole resulting line is submitted if the channel is open. The non-empty later segments join the back of the queue in order. |
| Runner.Session.ProcessNextQueuedInput | frontend/src/hooks/useRunner.ts:272-280 | With lines queued and no wait, exactly the oldest line leaves the queue and is echoed and submitted. Otherwise nothing changes. |
| Runner.Session.OnOpen | frontend/src/hooks/useRunner.ts:283-294 | The session is connected, the output count is reset to 0, the notice is written, and the compile message with the session's code and language is the one message sent. |
| Runner.Session.OnClose | frontend/src/hooks/useRunner.ts:296-300 | Waiting and connected become false and the closed notice is written; the line and queue are kept. |
| Runner.Session.OnError | frontend/src/hooks/useRunner.ts:302-307 | The same state change as a close, with the error notice. |
| Runner.Session.CountOutput | frontend/src/hooks/useRunner.ts:322-334 | The count grows by the payload length, so it never decreases. The payload is written. Whenever the new total is over 100000, the too-long notice is written and exit is sent if the channel is open. |
| Runner.Session.OnMessage | frontend/src/hooks/useRunner.ts:309-354 | For stdout and stderr: count and write, stop waiting, and drain at most one queued line. compile_err and exit change no state and write one line: stderr, or the default text if it is empty; the exit code, 0 if absent. echo and unknown kinds change nothing. |
| Runner.Session.OnDecodeFailure | frontend/src/hooks/useRunner.ts:355-358 | A frame that fails to parse writes an error line and clears the wait without draining the queue. |
| Runner.Session.OnData | frontend/src/hooks/useRunner.ts:362-433 | For each `Route` branch, the exact new state. Ignored input changes nothing. Ctrl+C only sends exit, if open. Input while waiting only extends the queue. A duplicate only clears the composed text. Paste, erase (with the echo as written), arrows and typing act as the handlers above. |
| Runner.Session.OnCompositionStart | frontend/src/hooks/useRunner.ts:437-446 | Composing becomes true when connected; nothing else changes. |
| Runner.Session.OnCompositionEnd | frontend/src/hooks/useRunner.ts:448-461 | When not connected or waiting, nothing changes, and the composing flag stays as it was. Otherwise the composed text is remembered, inserted with its echo, and composing ends. |
| Runner.Watchdog.constructor | frontend/src/hooks/useRunner.ts:133 | The countdown starts at 180 with the interval running. |
| Runner.Watchdog.Tick | frontend/src/hooks/useRunner.ts:134-147 | A cleared interval changes nothing. Otherwise the time drops by one. On reaching 0 or less, the interval is cleared, exit and the time-limit notice go out if the channel is open, and the channel is closed in any case. |
| Scenarios.TypeThenErase | frontend/src/hooks/useRunner.ts:230-254 | Typing "abc", then DEL and BS, leaves "a" with cursor 1 and sends nothing beyond the program. |
| Scenarios.PasteThenOutput | frontend/src/hooks/useRunner.ts:256-280 | Pasting "one\ntwo\nthree" sends "one\n" and queues "two" and "three". The next stdout frame sends "two\n", leaves "three" queued, and the session waits again. |
| Scenarios.EchoKeepsWaiting | frontend/src/hooks/useRunner.ts:318-320 | After Enter, an echo frame leaves the session waiting, so a line pasted meanwhile is queued, not sent. |
| Scenarios.ExitCodes | frontend/src/hooks/useRunner.ts:336-340 | Exit frames report their code, and 0 when it is absent. |
| Scenarios.ComposedTextOnce | frontend/src/hooks/useRunner.ts:380-384 | A composed syllable is inserted once at composition end. Its duplicate arrives as data and is dropped exactly once; the same syllable typed again is inserted. |
| Scenarios.OutputOverLimit | frontend/src/hooks/useRunner.ts:328-333 | Once the total is over 100000, each further output frame sends another exit message. |
| Scenarios.WatchdogExpiry | frontend/src/hooks/useRunner.ts:133-147 | On an open channel the watchdog fires 180 times. The last firing sends exactly one exit and leaves the channel closing; a later firing does nothing. |

## Left out

- The JSON text of frames. The model has the object `JSON.parse` returns (`Frame`) and the value sent (`RunnerMessage`); a parse failure is the separate event `OnDecodeFailure`, whose error text is not modelled.
- A frame with no `type` key or a non-string `type`. The handler's switch treats it like an unknown kind, and a `typeName` that names no kind already covers that case. Also left out: a `return_code` that is not an integer (`|| 0` also maps `NaN` to 0), and `data` or `stderr` fields that are not strings.
- React plumbing (`useState`, `useCallback`, `useEffect`), the `cleanup` teardown, xterm construction, the fit add-on, resize observers and listeners, `terminal.focus()`, and console logging. These are library and DOM calls with no session state.
- The real timing of `setInterval`. Each firing is a call to `Watchdog.Tick`, and the caller decides the order of ticks and other events.
- The WebSocket transport. `Channel.Established` and `Channel.Ended` stand for the handshake and the close; the server's behaviour is the caller's choice of events.
- The exact notice texts. Each fixed line is a `Notice` constructor; only the code in the process-ended notice is kept.
- The composition handlers are installed only when `terminal.textarea` exists. The model assumes it does.
- The column model (`Shift`, `Width`). It covers a single row with no wrapping and no clamping at column 0, and it treats control units other than BS as not moving the cursor. The column lemmas assume printable text. A code unit's width is the code's own table (`IsFullWidth`). Characters a terminal draws two cells wide outside the five blocks (CJK ideographs, emoji) count as one. The column lemmas therefore show that the echoes agree with that table, not with the screen.

## Findings

| source | as written | input that shows it | evidently intended | confidence | as-written member | corrected member |
|---|---|---|---|---|---|---|
| frontend/src/hooks/useRunner.ts:243-247 | Backspace in the middle of the line always writes one BS, then deletes one or two cells. | The line "가a" (U+AC00 then "a") with the cursor after "가", then BS. The terminal cursor moves back one cell, onto the second half of the syllable, and two cells are deleted from there. The buffer cursor is now at column 0 but the terminal cursor is at column 1. | Move back as many cells as the deleted unit takes (two BS for a full-width unit), then delete that many. | medium, not executed | LineEditor.BackspaceEchoDrifts | LineEditor.CorrectedBackspaceKeepsColumn |
