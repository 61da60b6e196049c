/**
 * The terminal session of the code runner client
 * (frontend/src/hooks/useRunner.ts): the state `setupWebSocket` keeps in
 * closure variables becomes the fields of class Session, and each handler it
 * installs (channel open, close, error and message, terminal data,
 * composition start and end) becomes a method. The WebSocket is class
 * Channel (its readyState and the log of what was sent), the xterm terminal
 * is class Terminal (the log of what was written), and the interval that
 * `startRunner` sets up to bound the session's duration is class Watchdog,
 * one `Tick` per firing.
 */
module Runner {
  import opened Types
  import opened LineEditor

  /** WebSocket.readyState. */
  datatype ReadyState = Connecting | Open | Closing | Closed

  /** The WebSocket, as far as the session sees it. */
  class Channel {
    var state: ReadyState
    /** Every message sent, oldest first. */
    var sent: seq<RunnerMessage>

    /** `new WebSocket(url)`: connecting, nothing sent. */
    constructor ()
      ensures state == Connecting && sent == []
    {
      state := Connecting;
      sent := [];
    }

    /** `ws.send`: only allowed once the socket is open. */
    method Send(m: RunnerMessage)
      requires state == Open
      modifies this
      ensures state == Open && sent == old(sent) + [m]
    {
      sent := sent + [m];
    }

    /** `ws.close()`: starts the closing handshake unless it is already under way. */
    method Close()
      modifies this
      ensures sent == old(sent)
      ensures state == if old(state) in {Connecting, Open} then Closing else old(state)
    {
      if state == Connecting || state == Open {
        state := Closing;
      }
    }

    /** The transport completes the opening handshake (before `onopen` runs). */
    method Established()
      requires state == Connecting
      modifies this
      ensures state == Open && sent == old(sent)
    {
      state := Open;
    }

    /** The transport closes or fails the connection (before `onclose` or `onerror` runs). */
    method Ended()
      modifies this
      ensures state == Closed && sent == old(sent)
    {
      state := Closed;
    }
  }

  /** The fixed lines the session writes, one constructor per message text. */
  datatype Notice =
    | Dialing                 // connecting to the runner
    | Connected               // connected; Ctrl + C exits
    | ConnectionClosed        // connection to the runner closed
    | ConnectionError         // an error occurred, connection closed
    | ExitSent                // exit message sent to the server
    | OutputTooLong           // output over 100000 characters, process terminated
    | ProcessEnded(code: int) // process ended with the given exit code
    | CompilationError        // the default text for a compile error without stderr
    | TimeLimitExceeded       // over 180 seconds, process terminated
    | DecodeError             // a received frame could not be parsed

  /** One call on the terminal: `write`, `writeln`, or `writeln` of a fixed notice. */
  datatype TermWrite = Raw(text: Text) | Line(text: Text) | Note(notice: Notice)

  /** A series of `write` calls. */
  function Raws(ts: seq<Text>): seq<TermWrite> {
    seq(|ts|, i requires 0 <= i < |ts| => Raw(ts[i]))
  }

  lemma RawsOfOne(a: Text)
    ensures Raws([a]) == [Raw(a)]
  {
  }

  lemma RawsOfTwo(a: Text, b: Text)
    ensures Raws([a, b]) == [Raw(a), Raw(b)]
  {
  }

  lemma RawsOfThree(a: Text, b: Text, c: Text)
    ensures Raws([a, b, c]) == [Raw(a), Raw(b), Raw(c)]
  {
  }

  /** The xterm terminal, as the log of what was written to it. */
  class Terminal {
    var log: seq<TermWrite>

    constructor ()
      ensures log == []
    {
      log := [];
    }

    method Write(t: Text)
      modifies this
      ensures log == old(log) + [Raw(t)]
    {
      log := log + [Raw(t)];
    }

    method WriteLine(t: Text)
      modifies this
      ensures log == old(log) + [Line(t)]
    {
      log := log + [Line(t)];
    }

    method Announce(n: Notice)
      modifies this
      ensures log == old(log) + [Note(n)]
    {
      log := log + [Note(n)];
    }
  }

  /** The `type` a received frame names, if it is one of the seven. */
  function Kind(f: Frame): Option<MessageType> {
    ParseType(f.typeName)
  }

  /** A stdout or stderr frame: the kinds that count against the output limit and unblock input. */
  predicate IsOutput(f: Frame) {
    Kind(f) == Some(Stdout) || Kind(f) == Some(Stderr)
  }

  /** `data.data || ''`. */
  function Payload(f: Frame): Text {
    f.data.GetOr([])
  }

  /** `writeln(data.stderr || 'Compilation error')`: an empty or absent stderr shows the default text. */
  function CompileErrorWrite(f: Frame): TermWrite {
    if f.stderr.Some? && f.stderr.value != [] then Line(f.stderr.value) else Note(CompilationError)
  }

  /** The client side of one run: what `setupWebSocket` sets up. */
  class Session {
    const channel: Channel
    const terminal: Terminal
    /** The program and its language, sent once the channel opens. */
    const code: Text
    const language: Language

    var buffer: Text          // currentInputBuffer
    var cursor: nat           // cursorPosition
    var waiting: bool         // isWaitingForServerResponse
    var connected: bool       // isConnected
    var composing: bool       // isComposing
    var lastComposed: Text    // lastComposedText
    var queue: seq<Text>      // inputQueue
    var outputLength: nat     // outputLength

    /** The cursor never leaves the line. */
    predicate Valid()
      reads this
    {
      cursor <= |buffer|
    }

    /** The line and cursor as an editor value. */
    function View(): Editor
      reads this
    {
      Editor(buffer, cursor)
    }

    /** The branch of the data handler that `data` takes in the current state. */
    function Action(data: Text): KeyAction
      reads this
    {
      Route(connected, waiting, composing, lastComposed, data)
    }

    /** `processLine(line)` has run: when the channel was open, `line` and a
        newline went out as one input message, the session waits, and the
        line, cursor and last composed text are reset; otherwise nothing of
        this changed. */
    twostate predicate Submitted(line: Text)
      reads this, channel
    {
      && (old(channel.state) == Open ==>
            && waiting && buffer == [] && cursor == 0 && lastComposed == []
            && channel.sent == old(channel.sent) + [CreateInputMessage(line + [LF])])
      && (old(channel.state) != Open ==>
            && waiting == old(waiting) && buffer == old(buffer) && cursor == old(cursor)
            && lastComposed == old(lastComposed) && channel.sent == old(channel.sent))
    }

    /** `handlePasteWithLineBreaks(data)` has run. */
    twostate predicate Pasted(data: Text)
      reads this, channel, terminal
      requires old(Valid())
    {
      && queue == old(queue) + PasteQueued(data)
      && terminal.log == old(terminal.log) + Raws(PasteEcho(old(View()), data)) + [Line([])]
      && (old(channel.state) == Open ==>
            && waiting && View() == EmptyLine && lastComposed == []
            && channel.sent == old(channel.sent) + [CreateInputMessage(PasteEditor(old(View()), data).buffer + [LF])])
      && (old(channel.state) != Open ==>
            && View() == PasteEditor(old(View()), data) && waiting == old(waiting)
            && lastComposed == old(lastComposed) && channel.sent == old(channel.sent))
    }

    /** `processNextQueuedInput()` has run: with lines queued and no response
        awaited, the oldest line was taken off the queue, echoed and submitted;
        otherwise nothing changed. */
    twostate predicate Drained()
      reads this, channel, terminal
    {
      && (old(queue) == [] || old(waiting) ==>
            && queue == old(queue) && waiting == old(waiting) && buffer == old(buffer) && cursor == old(cursor)
            && lastComposed == old(lastComposed) && channel.sent == old(channel.sent)
            && terminal.log == old(terminal.log))
      && (old(queue) != [] && !old(waiting) ==>
            && queue == old(queue)[1..]
            && terminal.log == old(terminal.log) + [Line(old(queue)[0])]
            && Submitted(old(queue)[0]))
    }

    /** setupWebSocket: announces the connection attempt and opens the socket. */
    constructor (term: Terminal, code: Text, language: Language)
      modifies term
      ensures Valid()
      ensures terminal == term && this.code == code && this.language == language
      ensures fresh(channel) && channel.state == Connecting && channel.sent == []
      ensures term.log == old(term.log) + [Note(Dialing)]
      ensures buffer == [] && cursor == 0 && !waiting && !connected && !composing
      ensures lastComposed == [] && queue == [] && outputLength == 0
    {
      buffer, cursor := [], 0;
      waiting, connected := false, false;
      queue := [];
      composing, lastComposed := false, [];
      outputLength := 0;
      terminal := term;
      this.code := code;
      this.language := language;
      term.Announce(Dialing);
      channel := new Channel();
    }

    /** sendExitMessage: an exit message and a notice, only on an open channel. */
    method SendExit()
      modifies channel, terminal
      ensures channel.state == old(channel.state)
      ensures channel.sent == old(channel.sent) + (if old(channel.state) == Open then [CreateExitMessage()] else [])
      ensures terminal.log == old(terminal.log) + (if old(channel.state) == Open then [Note(ExitSent)] else [])
    {
      if channel.state == Open {
        channel.Send(CreateExitMessage());
        terminal.Announce(ExitSent);
      }
    }

    /** processLine: submits a line, only on an open channel. */
    method ProcessLine(line: Text)
      requires Valid()
      modifies this, channel
      ensures Valid() && channel.state == old(channel.state)
      ensures Submitted(line)
      ensures connected == old(connected) && composing == old(composing)
      ensures queue == old(queue) && outputLength == old(outputLength)
    {
      if channel.state == Open {
        waiting := true;
        channel.Send(CreateInputMessage(line + [LF]));
        buffer := [];
        cursor := 0;
        lastComposed := [];
      }
    }

    /** handleTextInput. */
    method HandleTextInput(t: Text)
      requires Valid()
      modifies this, terminal
      ensures Valid() && View() == Insert(old(View()), t)
      ensures terminal.log == old(terminal.log) + Raws(InsertEcho(old(View()), t))
      ensures waiting == old(waiting) && connected == old(connected) && composing == old(composing)
      ensures lastComposed == old(lastComposed) && queue == old(queue) && outputLength == old(outputLength)
    {
      if cursor == |buffer| {
        terminal.Write(t);
        buffer := buffer + t;
        cursor := cursor + |t|;
      } else {
        terminal.Write(InsertModeOn);
        terminal.Write(t);
        terminal.Write(InsertModeOff);
        buffer := buffer[..cursor] + t + buffer[cursor..];
        cursor := cursor + |t|;
      }
      RawsOfOne(t);
      RawsOfThree(InsertModeOn, t, InsertModeOff);
    }

    /** handleBackspaceInput. In the middle of the line it moves back a single
        cell whatever the width of the deleted unit (see BackspaceEchoDrifts). */
    method HandleBackspace()
      requires Valid()
      modifies this, terminal
      ensures Valid() && View() == Backspace(old(View()))
      ensures terminal.log == old(terminal.log) + Raws(BackspaceEcho(old(View())))
      ensures waiting == old(waiting) && connected == old(connected) && composing == old(composing)
      ensures lastComposed == old(lastComposed) && queue == old(queue) && outputLength == old(outputLength)
    {
      if cursor == 0 {
        return;
      }
      var wide := IsFullWidth([buffer[cursor - 1]]);
      if cursor == |buffer| {
        terminal.Write(if wide then EraseWide else EraseNarrow);
      } else {
        terminal.Write([BS]);
        terminal.Write(DeleteChars(if wide then 2 else 1));
      }
      buffer := buffer[..cursor - 1] + buffer[cursor..];
      cursor := cursor - 1;
      RawsOfOne(EraseWide);
      RawsOfOne(EraseNarrow);
      RawsOfTwo([BS], DeleteChars(2));
      RawsOfTwo([BS], DeleteChars(1));
    }

    /** The left-arrow branch of the data handler. */
    method ArrowLeft()
      requires Valid()
      modifies this, terminal
      ensures Valid() && View() == MoveLeft(old(View()))
      ensures terminal.log == old(terminal.log) + Raws(MoveLeftEcho(old(View())))
      ensures waiting == old(waiting) && connected == old(connected) && composing == old(composing)
      ensures lastComposed == old(lastComposed) && queue == old(queue) && outputLength == old(outputLength)
    {
      if cursor > 0 {
        var wide := IsFullWidth([buffer[cursor - 1]]);
        cursor := cursor - 1;
        terminal.Write(CursorLeft);
        if wide {
          terminal.Write(CursorLeft);
        }
      }
      RawsOfOne(CursorLeft);
      RawsOfTwo(CursorLeft, CursorLeft);
    }

    /** The right-arrow branch of the data handler. */
    method ArrowRight()
      requires Valid()
      modifies this, terminal
      ensures Valid() && View() == MoveRight(old(View()))
      ensures terminal.log == old(terminal.log) + Raws(MoveRightEcho(old(View())))
      ensures waiting == old(waiting) && connected == old(connected) && composing == old(composing)
      ensures lastComposed == old(lastComposed) && queue == old(queue) && outputLength == old(outputLength)
    {
      if cursor < |buffer| {
        var wide := IsFullWidth([buffer[cursor]]);
        cursor := cursor + 1;
        terminal.Write(CursorRight);
        if wide {
          terminal.Write(CursorRight);
        }
      }
      RawsOfOne(CursorRight);
      RawsOfTwo(CursorRight, CursorRight);
    }

    /** handlePasteWithLineBreaks. */
    method HandlePaste(data: Text)
      requires Valid()
      modifies this, channel, terminal
      ensures Valid() && channel.state == old(channel.state)
      ensures Pasted(data)
      ensures connected == old(connected) && composing == old(composing) && outputLength == old(outputLength)
    {
      var lines := SplitLines(data);
      if lines[0] != [] {
        HandleTextInput(lines[0]);
      }
      terminal.WriteLine([]);
      ProcessLine(buffer);
      if |lines| > 1 {
        queue := queue + NonEmptyLines(lines[1..]);
      }
    }

    /** processNextQueuedInput. */
    method ProcessNextQueuedInput()
      requires Valid()
      modifies this, channel, terminal
      ensures Valid() && channel.state == old(channel.state)
      ensures Drained()
      ensures connected == old(connected) && composing == old(composing) && outputLength == old(outputLength)
    {
      if |queue| > 0 && !waiting {
        var next := queue[0];
        queue := queue[1..];
        terminal.WriteLine(next);
        ProcessLine(next);
      }
    }

    /** `ws.onopen`: the socket is open; announce, mark connected, reset the
        output count and send the program. */
    method OnOpen()
      requires Valid() && channel.state == Open
      modifies this, channel, terminal
      ensures Valid() && channel.state == Open
      ensures connected && outputLength == 0
      ensures channel.sent == old(channel.sent) + [CreateCompileMessage(code, language)]
      ensures terminal.log == old(terminal.log) + [Note(Connected)]
      ensures View() == old(View()) && waiting == old(waiting) && composing == old(composing)
      ensures lastComposed == old(lastComposed) && queue == old(queue)
    {
      terminal.Announce(Connected);
      connected := true;
      outputLength := 0;
      channel.Send(CreateCompileMessage(code, language));
    }

    /** `ws.onclose`: no longer connected, no longer waiting. */
    method OnClose()
      requires Valid()
      modifies this, terminal
      ensures Valid() && !waiting && !connected
      ensures terminal.log == old(terminal.log) + [Note(ConnectionClosed)]
      ensures View() == old(View()) && composing == old(composing) && lastComposed == old(lastComposed)
      ensures queue == old(queue) && outputLength == old(outputLength)
    {
      terminal.Announce(ConnectionClosed);
      waiting := false;
      connected := false;
    }

    /** `ws.onerror`: the same state change as a close, with its own notice. */
    method OnError()
      requires Valid()
      modifies this, terminal
      ensures Valid() && !waiting && !connected
      ensures terminal.log == old(terminal.log) + [Note(ConnectionError)]
      ensures View() == old(View()) && composing == old(composing) && lastComposed == old(lastComposed)
      ensures queue == old(queue) && outputLength == old(outputLength)
    {
      terminal.Announce(ConnectionError);
      waiting := false;
      connected := false;
    }

    /** The stdout and stderr case of the message handler: count the payload,
        write it, and send exit when the running total is over the limit (on
        every such frame: nothing records that exit was already sent). */
    method CountOutput(payload: Text)
      requires Valid()
      modifies this, channel, terminal
      ensures Valid() && channel.state == old(channel.state)
      ensures outputLength == old(outputLength) + |payload|
      ensures var over := outputLength > MAX_OUTPUT_LENGTH;
        var open := old(channel.state) == Open;
        && channel.sent == old(channel.sent) + (if over && open then [CreateExitMessage()] else [])
        && terminal.log == old(terminal.log) + [Raw(payload)]
             + (if over then [Note(OutputTooLong)] + (if open then [Note(ExitSent)] else []) else [])
      ensures View() == old(View()) && waiting == old(waiting) && connected == old(connected)
      ensures composing == old(composing) && lastComposed == old(lastComposed) && queue == old(queue)
    {
      outputLength := outputLength + |payload|;
      terminal.Write(payload);
      if outputLength > MAX_OUTPUT_LENGTH {
        terminal.Announce(OutputTooLong);
        SendExit();
      }
    }

    /** `ws.onmessage` for a frame that parsed. compile_err and exit only write
        a line; echo and every other kind return at once; stdout and stderr
        count, write, send exit whenever the running total is over the limit,
        stop waiting and drain at most one queued line. */
    method OnMessage(f: Frame)
      requires Valid()
      modifies this, channel, terminal
      ensures Valid() && channel.state == old(channel.state)
      ensures connected == old(connected) && composing == old(composing)
      ensures !IsOutput(f) ==>
        && queue == old(queue) && waiting == old(waiting) && View() == old(View())
        && lastComposed == old(lastComposed) && outputLength == old(outputLength)
        && channel.sent == old(channel.sent)
        && terminal.log == old(terminal.log) +
             (if Kind(f) == Some(CompileErr) then [CompileErrorWrite(f)]
              else if Kind(f) == Some(Exit) then [Note(ProcessEnded(f.returnCode.GetOr(0)))]
              else [])
      ensures IsOutput(f) ==>
        var over := outputLength > MAX_OUTPUT_LENGTH;
        var open := old(channel.state) == Open;
        var next := old(queue) != [];
        && outputLength == old(outputLength) + |Payload(f)|
        && queue == (if next then old(queue)[1..] else [])
        && waiting == (next && open)
        && channel.sent == old(channel.sent)
             + (if over && open then [CreateExitMessage()] else [])
             + (if next && open then [CreateInputMessage(old(queue)[0] + [LF])] else [])
        && terminal.log == old(terminal.log) + [Raw(Payload(f))]
             + (if over then [Note(OutputTooLong)] + (if open then [Note(ExitSent)] else []) else [])
             + (if next then [Line(old(queue)[0])] else [])
        && (next && open ==> View() == EmptyLine && lastComposed == [])
        && (!(next && open) ==> View() == old(View()) && lastComposed == old(lastComposed))
    {
      var kind := Kind(f);
      if kind == Some(CompileErr) {
        if f.stderr.Some? && f.stderr.value != [] {
          terminal.WriteLine(f.stderr.value);
        } else {
          terminal.Announce(CompilationError);
        }
      } else if kind == Some(Echo) {
        return;
      } else if kind == Some(Stdout) || kind == Some(Stderr) {
        CountOutput(Payload(f));
      } else if kind == Some(Exit) {
        terminal.Announce(ProcessEnded(f.returnCode.GetOr(0)));
      } else {
        return;
      }
      // an echo frame has already returned, so only stdout and stderr get here
      if kind == Some(Stdout) || kind == Some(Stderr) || kind == Some(Echo) {
        waiting := false;
        ProcessNextQueuedInput();
      }
    }

    /** `ws.onmessage` when JSON.parse throws: report it and stop waiting, without draining. */
    method OnDecodeFailure()
      requires Valid()
      modifies this, terminal
      ensures Valid() && !waiting
      ensures terminal.log == old(terminal.log) + [Note(DecodeError)]
      ensures View() == old(View()) && connected == old(connected) && composing == old(composing)
      ensures lastComposed == old(lastComposed) && queue == old(queue) && outputLength == old(outputLength)
    {
      terminal.Announce(DecodeError);
      waiting := false;
    }

    /** `terminal.onData`: routes the input to one branch (see Route). */
    method OnData(data: Text)
      requires Valid()
      modifies this, channel, terminal
      ensures Valid() && channel.state == old(channel.state)
      ensures connected == old(connected) && composing == old(composing) && outputLength == old(outputLength)
      ensures old(Action(data)) in {Ignore, Drop} ==>
        unchanged(this) && channel.sent == old(channel.sent) && terminal.log == old(terminal.log)
      ensures old(Action(data)) == Interrupt ==>
        && unchanged(this)
        && channel.sent == old(channel.sent) + (if old(channel.state) == Open then [CreateExitMessage()] else [])
        && terminal.log == old(terminal.log) + (if old(channel.state) == Open then [Note(ExitSent)] else [])
      ensures old(Action(data)).Enqueue? ==>
        && queue == old(queue) + old(Action(data)).lines
        && View() == old(View()) && waiting == old(waiting) && lastComposed == old(lastComposed)
        && channel.sent == old(channel.sent) && terminal.log == old(terminal.log)
      ensures old(Action(data)) == DropDuplicate ==>
        && lastComposed == [] && View() == old(View()) && waiting == old(waiting) && queue == old(queue)
        && channel.sent == old(channel.sent) && terminal.log == old(terminal.log)
      ensures old(Action(data)) == Paste ==> Pasted(data)
      ensures old(Action(data)) in {Erase, Left, Right, TypeChar} ==>
        && waiting == old(waiting) && queue == old(queue) && lastComposed == old(lastComposed)
        && channel.sent == old(channel.sent)
      ensures old(Action(data)) == Erase ==>
        View() == Backspace(old(View()))
        && terminal.log == old(terminal.log) + Raws(BackspaceEcho(old(View())))
      ensures old(Action(data)) == Left ==>
        View() == MoveLeft(old(View())) && terminal.log == old(terminal.log) + Raws(MoveLeftEcho(old(View())))
      ensures old(Action(data)) == Right ==>
        View() == MoveRight(old(View())) && terminal.log == old(terminal.log) + Raws(MoveRightEcho(old(View())))
      ensures old(Action(data)) == TypeChar ==>
        View() == Insert(old(View()), data) && terminal.log == old(terminal.log) + Raws(InsertEcho(old(View()), data))
    {
      match Action(data)
      case Ignore =>
      case Interrupt =>
        SendExit();
      case Enqueue(lines) =>
        queue := queue + lines;
      case DropDuplicate =>
        lastComposed := [];
      case Paste =>
        HandlePaste(data);
      case Erase =>
        HandleBackspace();
      case Left =>
        ArrowLeft();
      case Right =>
        ArrowRight();
      case TypeChar =>
        HandleTextInput(data);
      case Drop =>
    }

    /** compositionstart: marks composing, unless not connected. */
    method OnCompositionStart()
      modifies this
      ensures composing == (old(composing) || old(connected))
      ensures View() == old(View()) && waiting == old(waiting) && connected == old(connected)
      ensures lastComposed == old(lastComposed) && queue == old(queue) && outputLength == old(outputLength)
    {
      if !connected {
        return;
      }
      composing := true;
    }

    /** compositionend: unless not connected or waiting (when even the
        composing flag stays set), remembers the composed text, inserts it and
        ends composing. */
    method OnCompositionEnd(composed: Text)
      requires Valid()
      modifies this, terminal
      ensures Valid()
      ensures !old(connected) || old(waiting) ==> unchanged(this) && terminal.log == old(terminal.log)
      ensures old(connected) && !old(waiting) ==>
        && View() == Insert(old(View()), composed) && lastComposed == composed && !composing
        && terminal.log == old(terminal.log) + Raws(InsertEcho(old(View()), composed))
      ensures waiting == old(waiting) && connected == old(connected)
      ensures queue == old(queue) && outputLength == old(outputLength)
    {
      if !connected || waiting {
        return;
      }
      lastComposed := composed;
      HandleTextInput(composed);
      composing := false;
    }
  }

  /** The interval `startRunner` starts: counts down from the time limit, one
      tick per second; on the tick that reaches zero it clears itself, sends
      exit if the channel is open, and closes the channel in any case. */
  class Watchdog {
    const channel: Channel
    const terminal: Terminal
    var timeLeft: int
    /** The interval has not been cleared. */
    var running: bool

    constructor (ch: Channel, term: Terminal)
      ensures channel == ch && terminal == term
      ensures timeLeft == CONNECTION_TIME_LIMIT && running
    {
      channel := ch;
      terminal := term;
      timeLeft := CONNECTION_TIME_LIMIT;
      running := true;
    }

    /** One firing of the interval callback; a cleared interval does not fire. */
    method Tick()
      modifies this, channel, terminal
      ensures !old(running) ==> unchanged(this) && unchanged(channel) && terminal.log == old(terminal.log)
      ensures old(running) ==> timeLeft == old(timeLeft) - 1 && running == (timeLeft > 0)
      ensures old(running) && timeLeft > 0 ==> unchanged(channel) && terminal.log == old(terminal.log)
      ensures old(running) && timeLeft <= 0 ==>
        && channel.sent == old(channel.sent) + (if old(channel.state) == Open then [CreateExitMessage()] else [])
        && terminal.log == old(terminal.log) + (if old(channel.state) == Open then [Note(TimeLimitExceeded)] else [])
        && channel.state == (if old(channel.state) in {Connecting, Open} then Closing else old(channel.state))
    {
      if !running {
        return;
      }
      timeLeft := timeLeft - 1;
      if timeLeft <= 0 {
        running := false;
        if channel.state == Open {
          channel.Send(CreateExitMessage());
          terminal.Announce(TimeLimitExceeded);
        }
        channel.Close();
      }
    }
  }
}
