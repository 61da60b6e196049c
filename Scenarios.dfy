/**
 * Whole runs of the client: a session is opened against a channel that
 * completes its handshake, and the handlers are driven in the order the
 * browser and the server would call them. Each method states what the run
 * leaves behind (messages sent, lines written, the line being edited).
 */
module Scenarios {
  import opened Types
  import opened LineEditor
  import opened Runner

  const One: Text := [0x6F, 0x6E, 0x65]          // "one"
  const Two: Text := [0x74, 0x77, 0x6F]          // "two"
  const Three: Text := [0x74, 0x68, 0x72, 0x65, 0x65]  // "three"
  const Hangul: CodeUnit := 0xAC00               // a full-width syllable

  /** A session whose channel has opened: the program has been sent. */
  method OpenSession(program: Text) returns (s: Session)
    ensures fresh(s) && fresh(s.channel) && fresh(s.terminal)
    ensures s.Valid() && s.connected && !s.waiting && !s.composing
    ensures s.View() == EmptyLine && s.lastComposed == [] && s.queue == [] && s.outputLength == 0
    ensures s.channel.state == Open && s.channel.sent == [CreateCompileMessage(program, Python)]
    ensures s.terminal.log == [Note(Dialing), Note(Connected)]
  {
    var term := new Terminal();
    s := new Session(term, program, Python);
    s.channel.Established();
    s.OnOpen();
  }

  // Single steps of a run. Each forwards one event to the session and keeps
  // only the part of the handler's contract that the runs below rely on.

  /** A session that takes keys: connected, idle, not composing, nothing
      just composed, and the cursor at the end of the line. */
  predicate Typing(s: Session)
    reads s
  {
    s.Valid() && s.connected && !s.waiting && !s.composing && s.lastComposed == [] && s.cursor == |s.buffer|
  }

  /** A key that inserts one code unit at the end of the line. */
  method Key(s: Session, c: CodeUnit)
    requires Typing(s) && c !in {ETX, BS, LF, CR, ESC, DEL}
    modifies s, s.channel, s.terminal
    ensures Typing(s) && s.buffer == old(s.buffer) + [c]
    ensures s.channel.sent == old(s.channel.sent) && s.terminal.log == old(s.terminal.log) + [Raw([c])]
  {
    assert s.Action([c]) == TypeChar;
    s.OnData([c]);
  }

  /** BS or DEL at the end of a non-empty line: the last code unit goes. */
  method EraseKey(s: Session, data: Text)
    requires Typing(s) && s.buffer != [] && (data == [BS] || data == [DEL])
    modifies s, s.channel, s.terminal
    ensures Typing(s) && s.buffer == old(s.buffer)[..|old(s.buffer)| - 1]
    ensures s.channel.sent == old(s.channel.sent)
  {
    assert s.Action(data) == Erase;
    s.OnData(data);
  }

  /** Data the handler drops as the terminal's copy of composed text. */
  method Duplicate(s: Session, data: Text)
    requires s.Valid() && s.Action(data) == DropDuplicate
    modifies s, s.channel, s.terminal
    ensures s.Valid() && s.lastComposed == []
    ensures s.View() == old(s.View()) && s.connected == old(s.connected) && s.waiting == old(s.waiting)
    ensures s.composing == old(s.composing) && s.terminal.log == old(s.terminal.log)
  {
    s.OnData(data);
  }

  /** Enter on an open channel: the line goes out and the session waits. */
  method Enter(s: Session)
    requires s.Valid() && s.Action([CR]) == Paste && s.channel.state == Open
    modifies s, s.channel, s.terminal
    ensures s.Valid() && s.waiting && s.View() == EmptyLine && s.queue == old(s.queue)
    ensures s.connected == old(s.connected) && s.composing == old(s.composing) && s.lastComposed == []
    ensures s.channel.state == Open && s.channel.sent == old(s.channel.sent) + [CreateInputMessage(old(s.buffer) + [LF])]
  {
    EnterSubmitsBuffer(s.View());
    s.OnData([CR]);
  }

  /** Typing "abc" and erasing twice, once with DEL and once with BS, leaves "a". */
  method TypeThenErase() returns (line: Text, cursor: nat, sent: seq<RunnerMessage>)
    ensures line == [0x61] && cursor == 1
    ensures sent == [CreateCompileMessage([], Python)]
  {
    var s := OpenSession([]);
    Key(s, 0x61);
    Key(s, 0x62);
    Key(s, 0x63);
    assert s.buffer == [0x61, 0x62, 0x63];
    EraseKey(s, [DEL]);
    EraseKey(s, [BS]);
    line, cursor, sent := s.buffer, s.cursor, s.channel.sent;
  }

  /** Pasting "one\ntwo\nthree" submits "one" and queues the rest; the first
      output that arrives then submits "two", and "three" stays queued. */
  method PasteThenOutput() returns (afterPaste: seq<RunnerMessage>, queued: seq<Text>,
                                    afterOutput: seq<RunnerMessage>, left: seq<Text>, waiting: bool)
    ensures afterPaste == [CreateCompileMessage([], Python), CreateInputMessage(One + [LF])]
    ensures queued == [Two, Three]
    ensures afterOutput == afterPaste + [CreateInputMessage(Two + [LF])]
    ensures left == [Three] && waiting
  {
    var s := OpenSession([]);
    var data := One + [LF] + Two + [LF] + Three;
    PasteThreeLines(One, Two, Three);
    assert s.Action(data) == Paste;
    s.OnData(data);
    afterPaste, queued := s.channel.sent, s.queue;
    var output := Frame("stdout", None, None, Some([0x68, 0x69]), None, None);
    assert IsOutput(output);
    s.OnMessage(output);
    afterOutput, left, waiting := s.channel.sent, s.queue, s.waiting;
  }

  /** Enter on an empty line submits an empty line and the session waits; an echo of the line does
      not end the wait, so a line pasted meanwhile is queued, not sent. */
  method EchoKeepsWaiting() returns (sent: seq<RunnerMessage>, waiting: bool, queued: seq<Text>)
    ensures sent == [CreateCompileMessage([], Python), CreateInputMessage([LF])]
    ensures waiting && queued == [Two]
  {
    var s := OpenSession([]);
    assert s.Action([CR]) == Paste;
    Enter(s);
    assert [] + [LF] == [LF];
    assert s.channel.sent == [CreateCompileMessage([], Python), CreateInputMessage([LF])];
    var echo := Frame("echo", None, None, Some([LF]), None, None);
    assert Kind(echo) == Some(Echo);
    s.OnMessage(echo);
    var pasted := Two + [LF];
    assert HasLineBreak(pasted);
    SplitLinesAfterLine(Two, []);
    assert pasted == Two + [LF] + [];
    assert NonEmptyLines([Two, []]) == [Two];
    assert s.Action(pasted) == Enqueue([Two]);
    s.OnData(pasted);
    sent, waiting, queued := s.channel.sent, s.waiting, s.queue;
  }

  /** Each exit frame reports its code, 0 when it carries none. */
  method ExitCodes() returns (log: seq<TermWrite>)
    ensures log == [Note(Dialing), Note(Connected), Note(ProcessEnded(1)), Note(ProcessEnded(0))]
  {
    var s := OpenSession([]);
    var failed := Frame("exit", None, None, None, None, Some(1));
    assert Kind(failed) == Some(Exit);
    s.OnMessage(failed);
    var ended := Frame("exit", None, None, None, None, None);
    assert Kind(ended) == Some(Exit);
    s.OnMessage(ended);
    log := s.terminal.log;
  }

  /** A composed syllable is inserted when composition ends; the copy of it
      that the terminal then reports as data is dropped once, and the same
      syllable typed again afterwards is inserted. */
  method ComposedTextOnce() returns (line: Text, log: seq<TermWrite>)
    ensures line == [Hangul, Hangul]
    ensures log == [Note(Dialing), Note(Connected), Raw([Hangul]), Raw([Hangul])]
  {
    var s := OpenSession([]);
    s.OnCompositionStart();
    assert s.Action([Hangul]) == DropDuplicate;
    Duplicate(s, [Hangul]);
    s.OnCompositionEnd([Hangul]);
    assert s.View() == Editor([Hangul], 1);
    assert s.Action([Hangul]) == DropDuplicate;
    Duplicate(s, [Hangul]);
    Key(s, Hangul);
    line, log := s.buffer, s.terminal.log;
  }

  /** Once the output total is over the limit, every further output frame
      sends another exit message. */
  method OutputOverLimit() returns (sent: seq<RunnerMessage>, total: nat)
    ensures sent == [CreateCompileMessage([], Python), CreateExitMessage(), CreateExitMessage()]
    ensures total == MAX_OUTPUT_LENGTH + 2
  {
    var s := OpenSession([]);
    var flood: Text := seq(MAX_OUTPUT_LENGTH + 1, _ => 0x61);
    var first := Frame("stdout", None, None, Some(flood), None, None);
    assert IsOutput(first);
    s.OnMessage(first);
    var second := Frame("stderr", None, None, Some([0x62]), None, None);
    assert IsOutput(second);
    s.OnMessage(second);
    sent, total := s.channel.sent, s.outputLength;
  }

  /** Left alone, the watchdog fires once a second; the 180th firing sends
      exit and closes the channel, and a firing after that does nothing. */
  method WatchdogExpiry() returns (ticks: nat, sent: seq<RunnerMessage>, state: ReadyState, log: seq<TermWrite>)
    ensures ticks == CONNECTION_TIME_LIMIT
    ensures sent == [CreateCompileMessage([], Python), CreateExitMessage()]
    ensures state == Closing
    ensures log == [Note(Dialing), Note(Connected), Note(TimeLimitExceeded)]
  {
    var s := OpenSession([]);
    var dog := new Watchdog(s.channel, s.terminal);
    ticks := 0;
    while dog.running
      invariant dog.channel == s.channel && dog.terminal == s.terminal
      invariant ticks <= CONNECTION_TIME_LIMIT
      invariant dog.running ==> dog.timeLeft == CONNECTION_TIME_LIMIT - ticks && ticks < CONNECTION_TIME_LIMIT
      invariant dog.running ==>
        s.channel.state == Open && s.channel.sent == [CreateCompileMessage([], Python)]
        && s.terminal.log == [Note(Dialing), Note(Connected)]
      invariant !dog.running ==>
        ticks == CONNECTION_TIME_LIMIT && s.channel.state == Closing
        && s.channel.sent == [CreateCompileMessage([], Python), CreateExitMessage()]
        && s.terminal.log == [Note(Dialing), Note(Connected), Note(TimeLimitExceeded)]
      decreases CONNECTION_TIME_LIMIT - ticks
    {
      dog.Tick();
      ticks := ticks + 1;
    }
    dog.Tick();
    sent, state, log := s.channel.sent, s.channel.state, s.terminal.log;
  }
}
