/**
 * The line editor of the runner's terminal session
 * (frontend/src/hooks/useRunner.ts, inside setupWebSocket): the width of a
 * code unit, editing the pending input line at a cursor together with the
 * escape sequences echoed for each edit, splitting pasted text into lines,
 * and the decision of which handler a piece of terminal input reaches.
 * Everything here is a function of its arguments; module Runner applies these
 * functions to the session's fields.
 *
 * Terminal columns. To say that an echo keeps the terminal cursor over the
 * buffer cursor, `Shift` gives how far the sequences this editor emits move
 * the terminal cursor along the single input row: a printable code unit
 * advances it by its width, BS and ESC[D move back one, ESC[C forward one,
 * the other four-unit ESC[ sequences (insert mode, delete cells) not at all.
 */
module LineEditor {
  import opened Types

  // Code units the editor reads or writes
  const ETX: CodeUnit := 0x03  // Ctrl+C
  const BS: CodeUnit := 0x08
  const LF: CodeUnit := 0x0A
  const CR: CodeUnit := 0x0D
  const ESC: CodeUnit := 0x1B
  const SP: CodeUnit := 0x20
  const LBRACKET: CodeUnit := 0x5B
  const DEL: CodeUnit := 0x7F

  /** ESC [ D: what the left-arrow key sends, and the cursor-left sequence. */
  const CursorLeft: Text := [ESC, LBRACKET, 0x44]
  /** ESC [ C: what the right-arrow key sends, and the cursor-right sequence. */
  const CursorRight: Text := [ESC, LBRACKET, 0x43]
  /** ESC [ 4 h and ESC [ 4 l: insert mode on and off. */
  const InsertModeOn: Text := [ESC, LBRACKET, 0x34, 0x68]
  const InsertModeOff: Text := [ESC, LBRACKET, 0x34, 0x6C]
  /** "\b \b" and "\b \b\b \b": erase one or two cells left of the cursor. */
  const EraseNarrow: Text := [BS, SP, BS]
  const EraseWide: Text := [BS, SP, BS, BS, SP, BS]

  /** ESC [ n P: delete n cells at the cursor. */
  function DeleteChars(n: nat): Text
    requires 1 <= n <= 9
  {
    [ESC, LBRACKET, 0x30 + n, 0x50]
  }

  // ---------------------------------------------------------------------
  // Character width

  /** isFullWidthCharacter: the first code unit of `s` lies in one of five
      wide blocks; the empty string is not wide. */
  function IsFullWidth(s: Text): (r: bool)
    ensures r ==> s != [] && 0x1100 <= s[0] <= 0xFFE6
  {
    if s == [] then false
    else
      var c := s[0];
      (0x1100 <= c <= 0x11FF)      // Hangul Jamo
      || (0x3130 <= c <= 0x318F)   // Hangul Compatibility Jamo
      || (0xAC00 <= c <= 0xD7A3)   // Hangul Syllables
      || (0xFF01 <= c <= 0xFF60)   // fullwidth punctuation
      || (0xFFE0 <= c <= 0xFFE6)   // fullwidth symbols
  }

  /** The five inclusive blocks as a table. */
  const WideBlocks: seq<(int, int)> :=
    [(0x1100, 0x11FF), (0x3130, 0x318F), (0xAC00, 0xD7A3), (0xFF01, 0xFF60), (0xFFE0, 0xFFE6)]

  /** A string is wide exactly when it is non-empty and its first code unit
      lies in some block of the table. */
  lemma FullWidthByTable(s: Text)
    ensures IsFullWidth(s) <==>
      s != [] && exists i :: 0 <= i < |WideBlocks| && WideBlocks[i].0 <= s[0] <= WideBlocks[i].1
  {
    if s != [] {
      var c := s[0];
      if IsFullWidth(s) {
        var i :=
          if c <= 0x11FF then 0
          else if c <= 0x318F then 1
          else if c <= 0xD7A3 then 2
          else if c <= 0xFF60 then 3
          else 4;
        assert WideBlocks[i].0 <= c <= WideBlocks[i].1;
      } else {
        forall i | 0 <= i < |WideBlocks|
          ensures !(WideBlocks[i].0 <= c <= WideBlocks[i].1)
        {
          assert i == 0 || i == 1 || i == 2 || i == 3 || i == 4;
        }
      }
    }
  }

  /** Terminal cells one code unit takes: two for the wide blocks, one otherwise. */
  function Columns(c: CodeUnit): nat {
    if IsFullWidth([c]) then 2 else 1
  }

  /** Cells a text takes. */
  function Width(t: Text): nat {
    if t == [] then 0 else Columns(t[0]) + Width(t[1..])
  }

  lemma {:induction false} WidthAppend(a: Text, b: Text)
    ensures Width(a + b) == Width(a) + Width(b)
  {
    if a == [] {
      assert a + b == b;
    } else {
      assert (a + b)[1..] == a[1..] + b;
      WidthAppend(a[1..], b);
    }
  }

  /** A text without control code units (C0 and DEL). */
  predicate Printable(t: Text) {
    forall i :: 0 <= i < |t| ==> SP <= t[i] && t[i] != DEL
  }

  /** How far writing `t` moves the terminal cursor along the row. Control
      units other than BS are taken not to move it. */
  function Shift(t: Text): int
    decreases |t|
  {
    if t == [] then 0
    else if t[0] == BS then Shift(t[1..]) - 1
    else if t[0] == ESC then
      if |t| >= 3 && t[1] == LBRACKET && t[2] == 0x44 then Shift(t[3..]) - 1
      else if |t| >= 3 && t[1] == LBRACKET && t[2] == 0x43 then Shift(t[3..]) + 1
      else if |t| >= 4 && t[1] == LBRACKET then Shift(t[4..])
      else 0
    else if t[0] < SP || t[0] == DEL then Shift(t[1..])
    else Columns(t[0]) + Shift(t[1..])
  }

  /** The movement of a series of `terminal.write` calls. */
  function EchoShift(ws: seq<Text>): int {
    if ws == [] then 0 else Shift(ws[0]) + EchoShift(ws[1..])
  }

  lemma EchoShiftOfOne(a: Text)
    ensures EchoShift([a]) == Shift(a)
  {
    assert [a][1..] == [];
  }

  lemma EchoShiftOfTwo(a: Text, b: Text)
    ensures EchoShift([a, b]) == Shift(a) + Shift(b)
  {
    assert [a, b][1..] == [b];
    EchoShiftOfOne(b);
  }

  lemma EchoShiftOfThree(a: Text, b: Text, c: Text)
    ensures EchoShift([a, b, c]) == Shift(a) + Shift(b) + Shift(c)
  {
    assert [a, b, c][1..] == [b, c];
    EchoShiftOfTwo(b, c);
  }

  /** The movement of each fixed sequence the editor writes. */
  lemma ShiftOfControls()
    ensures Shift(CursorLeft) == -1 && Shift(CursorRight) == 1
    ensures Shift(InsertModeOn) == 0 && Shift(InsertModeOff) == 0
    ensures Shift(DeleteChars(1)) == 0 && Shift(DeleteChars(2)) == 0
    ensures Shift([BS]) == -1 && Shift([BS, BS]) == -2
    ensures Shift(EraseNarrow) == -1 && Shift(EraseWide) == -2
  {
    assert CursorLeft[3..] == [] && CursorRight[3..] == [];
    assert InsertModeOn[4..] == [] && InsertModeOff[4..] == [];
    assert DeleteChars(1)[4..] == [] && DeleteChars(2)[4..] == [];
    assert [BS][1..] == [] && [BS, BS][1..] == [BS];
    assert Shift([BS]) == -1;
    assert Columns(SP) == 1;
    var spbs: Text := [SP, BS];
    assert spbs[1..] == [BS];
    assert Shift(spbs) == Columns(SP) + Shift([BS]);
    assert EraseNarrow[1..] == spbs;
    assert Shift(EraseNarrow) == -1;
    var tail: Text := [SP, BS, BS, SP, BS];
    assert EraseWide[1..] == tail;
    var bbsb: Text := [BS, BS, SP, BS];
    assert tail[1..] == bbsb;
    assert bbsb[1..] == EraseNarrow;
    assert Shift(bbsb) == -2;
    assert Shift(tail) == -1;
  }

  /** The movement of each echo a backspace can write. */
  lemma BackspaceShifts()
    ensures EchoShift([EraseNarrow]) == -1 && EchoShift([EraseWide]) == -2
    ensures EchoShift([[BS], DeleteChars(1)]) == -1 && EchoShift([[BS], DeleteChars(2)]) == -1
    ensures EchoShift([[BS, BS], DeleteChars(2)]) == -2
  {
    ShiftOfControls();
    EchoShiftOfOne(EraseNarrow);
    EchoShiftOfOne(EraseWide);
    EchoShiftOfTwo([BS], DeleteChars(1));
    EchoShiftOfTwo([BS], DeleteChars(2));
    EchoShiftOfTwo([BS, BS], DeleteChars(2));
  }

  /** Printable text moves the cursor by its width. */
  lemma {:induction false} ShiftPrintable(t: Text)
    ensures Printable(t) ==> Shift(t) == Width(t)
  {
    if t != [] && Printable(t) {
      assert Printable(t[1..]) by {
        forall i | 0 <= i < |t[1..]| ensures SP <= t[1..][i] && t[1..][i] != DEL {
          assert t[1..][i] == t[i + 1];
        }
      }
      ShiftPrintable(t[1..]);
    }
  }

  // ---------------------------------------------------------------------
  // The pending line and its cursor

  /** `currentInputBuffer` and `cursorPosition`. */
  datatype Editor = Editor(buffer: Text, cursor: nat) {
    predicate Valid() {
      cursor <= |buffer|
    }

    /** The text left of the cursor. */
    function Before(): Text
      requires Valid()
    {
      buffer[..cursor]
    }

    /** The text right of the cursor. */
    function After(): Text
      requires Valid()
    {
      buffer[cursor..]
    }
  }

  /** The empty line. */
  const EmptyLine: Editor := Editor([], 0)

  /** handleTextInput: appends when the cursor is at the end, splices
      otherwise; either way `t` ends up just left of the cursor and the text
      right of the cursor is untouched. */
  function Insert(e: Editor, t: Text): (r: Editor)
    requires e.Valid()
    ensures r.Valid()
    ensures r.Before() == e.Before() + t && r.After() == e.After()
  {
    if e.cursor == |e.buffer| then
      Editor(e.buffer + t, e.cursor + |t|)
    else
      Editor(e.buffer[..e.cursor] + t + e.buffer[e.cursor..], e.cursor + |t|)
  }

  /** What handleTextInput writes: the text alone at the end, wrapped in
      insert mode in the middle. */
  function InsertEcho(e: Editor, t: Text): (ws: seq<Text>)
    requires e.Valid()
    ensures Printable(t) ==> EchoShift(ws) == Width(t)
  {
    ShiftPrintable(t);
    ShiftOfControls();
    EchoShiftOfOne(t);
    EchoShiftOfThree(InsertModeOn, t, InsertModeOff);
    if e.cursor == |e.buffer| then [t] else [InsertModeOn, t, InsertModeOff]
  }

  /** handleBackspaceInput's buffer update: nothing at the start of the line;
      otherwise the code unit left of the cursor goes and the rest stays. */
  function Backspace(e: Editor): (r: Editor)
    requires e.Valid()
    ensures r.Valid()
    ensures e.cursor == 0 ==> r == e
    ensures e.cursor > 0 ==> r.Before() == e.Before()[..e.cursor - 1] && r.After() == e.After()
  {
    if e.cursor == 0 then e
    else Editor(e.buffer[..e.cursor - 1] + e.buffer[e.cursor..], e.cursor - 1)
  }

  /** Backspace removes exactly one occurrence of the code unit left of the
      cursor, and takes the cursor and the length down by one, whatever the
      unit's width. */
  lemma BackspaceRemovesOne(e: Editor)
    requires e.Valid() && e.cursor > 0
    ensures Backspace(e).cursor == e.cursor - 1
    ensures |Backspace(e).buffer| == |e.buffer| - 1
    ensures multiset(Backspace(e).buffer) + multiset{e.buffer[e.cursor - 1]} == multiset(e.buffer)
  {
    var c := e.cursor;
    assert e.buffer == e.buffer[..c - 1] + [e.buffer[c - 1]] + e.buffer[c..];
  }

  /** handleBackspaceInput's echo, as the source writes it. At the end of the
      line it erases one or two cells; in the middle it always moves back a
      single cell before deleting one or two. */
  function BackspaceEcho(e: Editor): (ws: seq<Text>)
    requires e.Valid()
    ensures e.cursor == 0 ==> ws == []
    ensures 0 < e.cursor == |e.buffer| ==> EchoShift(ws) + Columns(e.buffer[e.cursor - 1]) == 0
    ensures 0 < e.cursor < |e.buffer| ==> EchoShift(ws) == -1
  {
    BackspaceShifts();
    if e.cursor == 0 then []
    else
      var wide := IsFullWidth([e.buffer[e.cursor - 1]]);
      if e.cursor == |e.buffer| then [if wide then EraseWide else EraseNarrow]
      else [[BS], DeleteChars(if wide then 2 else 1)]
  }

  /** The echo the middle-of-line branch evidently intends: move back as many
      cells as the deleted unit takes, then delete that many. The session writes
      BackspaceEcho instead (see BackspaceEchoesDiffer). */
  function CorrectedBackspaceEcho(e: Editor): (ws: seq<Text>)
    requires e.Valid()
    ensures e.cursor == 0 ==> ws == []
    ensures e.cursor > 0 ==> EchoShift(ws) + Columns(e.buffer[e.cursor - 1]) == 0
  {
    BackspaceShifts();
    if e.cursor == 0 then []
    else
      var wide := IsFullWidth([e.buffer[e.cursor - 1]]);
      if e.cursor == |e.buffer| then [if wide then EraseWide else EraseNarrow]
      else [if wide then [BS, BS] else [BS], DeleteChars(if wide then 2 else 1)]
  }

  /** The echo as written and the corrected one differ exactly for a
      backspace in the middle of the line over a full-width unit. */
  lemma BackspaceEchoesDiffer(e: Editor)
    requires e.Valid()
    ensures BackspaceEcho(e) != CorrectedBackspaceEcho(e) <==>
      0 < e.cursor < |e.buffer| && IsFullWidth([e.buffer[e.cursor - 1]])
  {
  }

  /** The left-arrow handler: one code unit left, if there is one. */
  function MoveLeft(e: Editor): (r: Editor)
    requires e.Valid()
    ensures r.Valid() && r.buffer == e.buffer
    ensures r.cursor == if e.cursor > 0 then e.cursor - 1 else e.cursor
  {
    if e.cursor > 0 then Editor(e.buffer, e.cursor - 1) else e
  }

  /** One cursor-left per cell of the unit crossed. */
  function MoveLeftEcho(e: Editor): (ws: seq<Text>)
    requires e.Valid()
    ensures e.cursor == 0 ==> ws == []
    ensures e.cursor > 0 ==> EchoShift(ws) + Columns(e.buffer[e.cursor - 1]) == 0
  {
    ShiftOfControls();
    EchoShiftOfOne(CursorLeft);
    EchoShiftOfTwo(CursorLeft, CursorLeft);
    if e.cursor > 0 then
      if IsFullWidth([e.buffer[e.cursor - 1]]) then [CursorLeft, CursorLeft] else [CursorLeft]
    else []
  }

  /** The right-arrow handler: one code unit right, if there is one. */
  function MoveRight(e: Editor): (r: Editor)
    requires e.Valid()
    ensures r.Valid() && r.buffer == e.buffer
    ensures r.cursor == if e.cursor < |e.buffer| then e.cursor + 1 else e.cursor
  {
    if e.cursor < |e.buffer| then Editor(e.buffer, e.cursor + 1) else e
  }

  /** One cursor-right per cell of the unit crossed. */
  function MoveRightEcho(e: Editor): (ws: seq<Text>)
    requires e.Valid()
    ensures e.cursor == |e.buffer| ==> ws == []
    ensures e.cursor < |e.buffer| ==> EchoShift(ws) == Columns(e.buffer[e.cursor])
  {
    ShiftOfControls();
    EchoShiftOfOne(CursorRight);
    EchoShiftOfTwo(CursorRight, CursorRight);
    if e.cursor < |e.buffer| then
      if IsFullWidth([e.buffer[e.cursor]]) then [CursorRight, CursorRight] else [CursorRight]
    else []
  }

  /** The arrows undo each other where they move at all. */
  lemma ArrowsInverse(e: Editor)
    requires e.Valid()
    ensures e.cursor > 0 ==> MoveRight(MoveLeft(e)) == e
    ensures e.cursor < |e.buffer| ==> MoveLeft(MoveRight(e)) == e
  {
  }

  /** Inserting in two pieces is inserting their concatenation. */
  lemma InsertConcat(e: Editor, a: Text, b: Text)
    requires e.Valid()
    ensures Insert(e, a + b) == Insert(Insert(e, a), b)
  {
    var r1, r2 := Insert(e, a + b), Insert(Insert(e, a), b);
    assert r1.Before() == r2.Before();
    assert r1.After() == r2.After();
    assert r1.buffer == r1.Before() + r1.After();
    assert r2.buffer == r2.Before() + r2.After();
  }

  /** `n` backspaces. */
  function EraseN(e: Editor, n: nat): (r: Editor)
    requires e.Valid()
    ensures r.Valid()
    decreases n
  {
    if n == 0 then e else EraseN(Backspace(e), n - 1)
  }

  /** Backspace undoes the insertion of one code unit. */
  lemma BackspaceUndoesInsert(e: Editor, c: CodeUnit)
    requires e.Valid()
    ensures Backspace(Insert(e, [c])) == e
  {
    var r := Backspace(Insert(e, [c]));
    assert r.Before() == e.Before();
    assert r.buffer == r.Before() + r.After();
    assert e.buffer == e.Before() + e.After();
  }

  /** Typing any text and then as many backspaces as it has code units gives
      back the line and the cursor as they were. */
  lemma {:induction false} TypeThenEraseRestores(e: Editor, t: Text)
    requires e.Valid()
    ensures EraseN(Insert(e, t), |t|) == e
    decreases |t|
  {
    if t == [] {
      assert Insert(e, t).Before() == e.Before();
      assert Insert(e, t).buffer == e.buffer;
    } else {
      var init, last := t[..|t| - 1], t[|t| - 1];
      assert t == init + [last];
      InsertConcat(e, init, [last]);
      BackspaceUndoesInsert(Insert(e, init), last);
      TypeThenEraseRestores(e, init);
    }
  }

  // ---------------------------------------------------------------------
  // The echo keeps the terminal cursor over the buffer cursor

  /** Writing printable text, at the end or in insert mode, moves the
      terminal cursor by exactly the width the text adds left of the cursor. */
  lemma InsertKeepsColumn(e: Editor, t: Text)
    requires e.Valid() && Printable(t)
    ensures Width(Insert(e, t).Before()) == Width(e.Before()) + EchoShift(InsertEcho(e, t))
  {
    WidthAppend(e.Before(), t);
    ShiftPrintable(t);
    ShiftOfControls();
    EchoShiftOfOne(t);
    EchoShiftOfThree(InsertModeOn, t, InsertModeOff);
  }

  /** The arrow echoes move the terminal cursor by the width of the unit crossed. */
  lemma ArrowsKeepColumn(e: Editor)
    requires e.Valid()
    ensures Width(MoveLeft(e).Before()) == Width(e.Before()) + EchoShift(MoveLeftEcho(e))
    ensures Width(MoveRight(e).Before()) == Width(e.Before()) + EchoShift(MoveRightEcho(e))
  {
    ShiftOfControls();
    EchoShiftOfOne(CursorLeft);
    EchoShiftOfTwo(CursorLeft, CursorLeft);
    EchoShiftOfOne(CursorRight);
    EchoShiftOfTwo(CursorRight, CursorRight);
    if e.cursor > 0 {
      assert e.Before() == e.buffer[..e.cursor - 1] + [e.buffer[e.cursor - 1]];
      WidthAppend(e.buffer[..e.cursor - 1], [e.buffer[e.cursor - 1]]);
    }
    if e.cursor < |e.buffer| {
      assert e.buffer[..e.cursor + 1] == e.Before() + [e.buffer[e.cursor]];
      WidthAppend(e.Before(), [e.buffer[e.cursor]]);
    }
  }

  /** With the corrected echo, backspace moves the terminal cursor back by the
      width of the unit it deletes, at the end of the line and in the middle. */
  lemma CorrectedBackspaceKeepsColumn(e: Editor)
    requires e.Valid()
    ensures Width(Backspace(e).Before()) == Width(e.Before()) + EchoShift(CorrectedBackspaceEcho(e))
  {
    if e.cursor > 0 {
      var c := e.buffer[e.cursor - 1];
      assert e.Before() == Backspace(e).Before() + [c];
      WidthAppend(Backspace(e).Before(), [c]);
      ShiftOfControls();
      EchoShiftOfOne(EraseNarrow);
      EchoShiftOfOne(EraseWide);
      EchoShiftOfTwo([BS], DeleteChars(1));
      EchoShiftOfTwo([BS, BS], DeleteChars(2));
    }
  }

  /** As written, backspace in the middle of "가a" (cursor after the wide
      syllable) moves the terminal cursor back one cell although the deleted
      unit takes two: the terminal cursor ends one cell right of the buffer
      cursor. */
  lemma BackspaceEchoDrifts()
    ensures var e := Editor([0xAC00, 0x61], 1);
      Width(Backspace(e).Before()) == 0
      && Width(e.Before()) == 2
      && EchoShift(BackspaceEcho(e)) == -1
  {
    var e := Editor([0xAC00, 0x61], 1);
    assert e.Before() == [0xAC00];
    assert Backspace(e).Before() == [];
    assert IsFullWidth([0xAC00]);
    assert BackspaceEcho(e) == [[BS], DeleteChars(2)];
    ShiftOfControls();
    EchoShiftOfTwo([BS], DeleteChars(2));
    assert Width([0xAC00]) == 2 by { assert [0xAC00][1..] == []; }
  }

  // ---------------------------------------------------------------------
  // Lines

  /** `data.includes('\r') || data.includes('\n')`. */
  predicate HasLineBreak(t: Text) {
    CR in t || LF in t
  }

  /** `data.split(/\r\n|\r|\n/)`: at each position the longest break wins, so
      CR LF is one break; there is always at least one segment and no segment
      holds a break. */
  function SplitLines(s: Text): (r: seq<Text>)
    ensures |r| >= 1
    ensures forall i :: 0 <= i < |r| ==> !HasLineBreak(r[i])
    decreases |s|
  {
    if s == [] then [[]]
    else if s[0] == CR && |s| >= 2 && s[1] == LF then [[]] + SplitLines(s[2..])
    else if s[0] == CR || s[0] == LF then [[]] + SplitLines(s[1..])
    else
      var rest := SplitLines(s[1..]);
      [[s[0]] + rest[0]] + rest[1..]
  }

  /** The text with every break (CR LF, CR, LF) written as one LF. */
  function Normalize(s: Text): Text
    decreases |s|
  {
    if s == [] then []
    else if s[0] == CR && |s| >= 2 && s[1] == LF then [LF] + Normalize(s[2..])
    else if s[0] == CR || s[0] == LF then [LF] + Normalize(s[1..])
    else [s[0]] + Normalize(s[1..])
  }

  /** The segments joined by LF. */
  function JoinLines(xs: seq<Text>): Text
    requires |xs| >= 1
  {
    if |xs| == 1 then xs[0] else xs[0] + [LF] + JoinLines(xs[1..])
  }

  /** Joining the segments by LF gives the text back with its breaks normalised:
      splitting loses nothing but the kind of each break. */
  lemma {:induction false} JoinSplitLines(s: Text)
    ensures JoinLines(SplitLines(s)) == Normalize(s)
    decreases |s|
  {
    if s == [] {
    } else if s[0] == CR && |s| >= 2 && s[1] == LF {
      JoinSplitLines(s[2..]);
    } else if s[0] == CR || s[0] == LF {
      JoinSplitLines(s[1..]);
    } else {
      var rest := SplitLines(s[1..]);
      JoinSplitLines(s[1..]);
      if |rest| > 1 {
        assert JoinLines(rest) == rest[0] + [LF] + JoinLines(rest[1..]);
        assert JoinLines(SplitLines(s))
            == ([s[0]] + rest[0]) + [LF] + JoinLines(rest[1..]);
      }
    }
  }

  /** One more segment than there are breaks (CR LF counting once). */
  lemma {:induction false} SplitLinesCount(s: Text)
    ensures |SplitLines(s)| == multiset(Normalize(s))[LF] + 1
    decreases |s|
  {
    if s == [] {
    } else if s[0] == CR && |s| >= 2 && s[1] == LF {
      SplitLinesCount(s[2..]);
    } else if s[0] == CR || s[0] == LF {
      SplitLinesCount(s[1..]);
    } else {
      SplitLinesCount(s[1..]);
      assert multiset(Normalize(s)) == multiset([s[0]]) + multiset(Normalize(s[1..]));
    }
  }

  /** Text without a break is a single segment. */
  lemma {:induction false} SplitLinesNoBreak(s: Text)
    requires !HasLineBreak(s)
    ensures SplitLines(s) == [s]
    decreases |s|
  {
    if s != [] {
      assert !HasLineBreak(s[1..]) by {
        assert forall u :: u in s[1..] ==> u in s;
      }
      SplitLinesNoBreak(s[1..]);
      assert [s[0]] + s[1..] == s;
    }
  }

  /** A break-free first line followed by LF splits off as the first segment. */
  lemma {:induction false} SplitLinesAfterLine(a: Text, rest: Text)
    requires !HasLineBreak(a)
    ensures SplitLines(a + [LF] + rest) == [a] + SplitLines(rest)
    decreases |a|
  {
    var s := a + [LF] + rest;
    if a == [] {
      assert s[1..] == rest;
    } else {
      assert s[1..] == a[1..] + [LF] + rest;
      assert !HasLineBreak(a[1..]) by {
        assert forall u :: u in a[1..] ==> u in a;
      }
      SplitLinesAfterLine(a[1..], rest);
      assert [a[0]] + a[1..] == a;
    }
  }

  /** `.filter((line) => line.length > 0)`: the non-empty lines, in order. */
  function NonEmptyLines(xs: seq<Text>): (r: seq<Text>)
    ensures |r| <= |xs|
    ensures forall i :: 0 <= i < |r| ==> r[i] != [] && r[i] in xs
  {
    if xs == [] then []
    else (if xs[0] == [] then [] else [xs[0]]) + NonEmptyLines(xs[1..])
  }

  /** Filtering commutes with concatenation, so it never reorders lines. */
  lemma {:induction false} NonEmptyLinesAppend(a: seq<Text>, b: seq<Text>)
    ensures NonEmptyLines(a + b) == NonEmptyLines(a) + NonEmptyLines(b)
    decreases |a|
  {
    if a != [] {
      assert (a + b)[1..] == a[1..] + b;
      NonEmptyLinesAppend(a[1..], b);
    } else {
      assert a + b == b;
    }
  }

  /** Filtering keeps a list of non-empty lines as it is. */
  lemma {:induction false} NonEmptyLinesKeepsAll(xs: seq<Text>)
    requires forall i :: 0 <= i < |xs| ==> xs[i] != []
    ensures NonEmptyLines(xs) == xs
    decreases |xs|
  {
    if xs != [] {
      NonEmptyLinesKeepsAll(xs[1..]);
      assert [xs[0]] + xs[1..] == xs;
    }
  }

  // ---------------------------------------------------------------------
  // Paste (handlePasteWithLineBreaks)

  /** The line a paste submits: the first segment inserted at the cursor when
      it is non-empty, and then the WHOLE buffer. */
  function PasteEditor(e: Editor, data: Text): (r: Editor)
    requires e.Valid()
    ensures r.Valid()
    ensures r.buffer == e.Before() + SplitLines(data)[0] + e.After()
  {
    var first := SplitLines(data)[0];
    if first != [] then Insert(e, first) else e
  }

  /** What the paste writes before its empty `writeln`. */
  function PasteEcho(e: Editor, data: Text): seq<Text>
    requires e.Valid()
  {
    var first := SplitLines(data)[0];
    if first != [] then InsertEcho(e, first) else []
  }

  /** The lines a paste queues: the non-empty segments after the first, in order. */
  function PasteQueued(data: Text): seq<Text> {
    NonEmptyLines(SplitLines(data)[1..])
  }

  /** Pasting "one\ntwo\nthree" into an empty line submits "one" and queues
      "two" then "three". */
  lemma PasteThreeLines(one: Text, two: Text, three: Text)
    requires one != [] && two != [] && three != []
    requires !HasLineBreak(one) && !HasLineBreak(two) && !HasLineBreak(three)
    ensures var data := one + [LF] + two + [LF] + three;
      PasteEditor(EmptyLine, data).buffer == one && PasteQueued(data) == [two, three]
  {
    var data := one + [LF] + two + [LF] + three;
    assert data == one + [LF] + (two + [LF] + three);
    SplitLinesAfterLine(one, two + [LF] + three);
    SplitLinesAfterLine(two, three);
    SplitLinesNoBreak(three);
    assert SplitLines(data) == [one, two, three];
    assert SplitLines(data)[1..] == [two, three];
    NonEmptyLinesKeepsAll([two, three]);
  }

  /** A lone Enter (CR) reaches the paste handler and submits the buffer as it
      stands, queueing nothing. */
  lemma EnterSubmitsBuffer(e: Editor)
    requires e.Valid()
    ensures PasteEditor(e, [CR]).buffer == e.buffer && PasteQueued([CR]) == []
    ensures PasteEcho(e, [CR]) == []
  {
    assert SplitLines([CR]) == [[], []];
    assert e.buffer == e.Before() + e.After();
  }

  /** Of the segments after the first there are as many as line breaks; the
      paste queues those of them that are non-empty. */
  lemma PasteQueuesAfterBreaks(data: Text)
    ensures |SplitLines(data)[1..]| == multiset(Normalize(data))[LF]
  {
    SplitLinesCount(data);
  }

  // ---------------------------------------------------------------------
  // Routing terminal input (the onData handler)

  /** Which branch of the onData handler a piece of input takes. */
  datatype KeyAction =
    | Ignore                        // not connected
    | Interrupt                     // Ctrl+C
    | Enqueue(lines: seq<Text>)     // waiting for the server: queue lines, drop the rest
    | DropDuplicate                 // composing, or the text just composed
    | Paste                         // contains a line break
    | Erase                         // BS or DEL
    | Left                          // ESC [ D
    | Right                         // ESC [ C
    | TypeChar                      // one code unit, not ESC
    | Drop                          // anything else

  /** Live input: connected, not Ctrl+C, not waiting, not composing, and not
      the text just composed. Only live input reaches the editing branches. */
  predicate Live(connected: bool, waiting: bool, composing: bool, lastComposed: Text, data: Text) {
    connected && data != [ETX] && !waiting && !composing && lastComposed != data
  }

  /** Each branch is taken exactly under the conditions that lead to it. */
  function Route(connected: bool, waiting: bool, composing: bool, lastComposed: Text, data: Text): (a: KeyAction)
    ensures a == Ignore <==> !connected
    ensures a == Interrupt <==> connected && data == [ETX]
    ensures a.Enqueue? <==> connected && data != [ETX] && waiting
    ensures a.Enqueue? ==> a.lines == (if HasLineBreak(data) then NonEmptyLines(SplitLines(data)) else [])
    ensures a.Enqueue? ==> forall i :: 0 <= i < |a.lines| ==> a.lines[i] != [] && !HasLineBreak(a.lines[i])
    ensures a == DropDuplicate <==> connected && data != [ETX] && !waiting && (composing || lastComposed == data)
    ensures var live := Live(connected, waiting, composing, lastComposed, data);
      && (a == Paste <==> live && HasLineBreak(data))
      && (a == Erase <==> live && (data == [BS] || data == [DEL]))
      && (a == Left <==> live && data == CursorLeft)
      && (a == Right <==> live && data == CursorRight)
      && (a == TypeChar <==> live && |data| == 1 && !HasLineBreak(data) && data[0] !in {BS, DEL, ESC})
      && (a == Drop <==> live && !HasLineBreak(data) && data != [BS] && data != [DEL]
                          && data != CursorLeft && data != CursorRight && !(|data| == 1 && data[0] != ESC))
  {
    if !connected then Ignore
    else if data == [ETX] then Interrupt
    else if waiting then Enqueue(if HasLineBreak(data) then NonEmptyLines(SplitLines(data)) else [])
    else if composing || lastComposed == data then DropDuplicate
    else if HasLineBreak(data) then Paste
    else if data == [BS] || data == [DEL] then Erase
    else if data == CursorLeft then Left
    else if data == CursorRight then Right
    else if |data| == 1 && data[0] != ESC then TypeChar
    else Drop
  }
}
