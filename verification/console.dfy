/** The text console of os-elephant, put_str and put_char of os-elephant/lib/kernel/print.S:17-153:
    a screen of 25 rows of 80 cells in video memory with a cursor, shown to be a window on an
    unbounded tape. */
module Console {
  import opened Words

  const COLUMNS: nat := 80
  const CELLS: nat := 2000
  // The limit of the video segment, os-elephant/boot/loader.S:13: eight pages.
  const VIDEO_BYTES: nat := 0x8000

  const BLANK_CHAR: nat := 0x20
  const ATTRIBUTE: nat := 0x07

  const CR: nat := 0xd
  const LF: nat := 0xa
  const BS: nat := 0x8

  datatype Cell = Cell(ch: nat, attr: nat)

  const BLANK := Cell(BLANK_CHAR, ATTRIBUTE)

  // ----- The tape -----

  /** Rows that never go away; the screen is the last 25 of them and `pos` lies on it. */
  datatype Tape = Tape(cells: seq<Cell>, pos: nat)

  function Top(t: Tape): int {
    |t.cells| - CELLS
  }

  ghost predicate TapeOk(t: Tape) {
    |t.cells| >= CELLS && |t.cells| % COLUMNS == 0 && Top(t) <= t.pos < |t.cells|
  }

  function BlankRow(): (r: seq<Cell>)
    ensures |r| == COLUMNS && forall i :: 0 <= i < COLUMNS ==> r[i] == BLANK
  {
    seq(COLUMNS, _ => BLANK)
  }

  /** The position moves to `pos`; a row is added when that is behind the last one. */
  function MoveTo(cells: seq<Cell>, pos: nat): Tape {
    if pos < |cells| then Tape(cells, pos) else Tape(cells + BlankRow(), pos)
  }

  function NextRow(pos: nat): nat {
    (pos / COLUMNS + 1) * COLUMNS
  }

  /** One character: the start of the next row, a step back with a blank, or a character and a
      step on. */
  function TapeStep(t: Tape, c: nat): Tape
    requires t.pos < |t.cells|
  {
    if c == CR || c == LF then MoveTo(t.cells, NextRow(t.pos))
    else if c == BS then (if t.pos == 0 then t else Tape(t.cells[t.pos - 1 := BLANK], t.pos - 1))
    else MoveTo(t.cells[t.pos := Cell(c, ATTRIBUTE)], t.pos + 1)
  }

  lemma TapeStepOk(t: Tape, c: nat)
    requires TapeOk(t) && !(c == BS && t.pos == Top(t))
    ensures TapeOk(TapeStep(t, c))
  {
    var n := |t.cells| / COLUMNS;
    assert |t.cells| == n * COLUMNS;
    assert t.pos / COLUMNS < n;
  }

  // ----- Video memory -----

  function Cells(m: seq<nat>): (s: seq<Cell>)
    requires |m| >= 2 * CELLS
    ensures |s| == CELLS && forall i :: 0 <= i < CELLS ==> s[i] == Cell(m[2 * i], m[2 * i + 1])
  {
    seq(CELLS, i requires 0 <= i < CELLS => Cell(m[2 * i], m[2 * i + 1]))
  }

  /** A word as jl sees it. */
  function Signed(x: nat): int {
    if x < 0x8000 then x else x - 0x1_0000
  }

  /** The rows above move up by one, the last one is blank. */
  function Scrolled(s: seq<Cell>): (r: seq<Cell>)
    requires |s| == CELLS
    ensures |r| == CELLS
  {
    s[COLUMNS..] + BlankRow()
  }

  class Screen {
    const vram: array<nat>
    /** The cursor registers of the display controller, as one. */
    var cursor: nat

    constructor (vram0: array<nat>, cursor0: nat)
      ensures vram == vram0 && cursor == cursor0
    {
      vram, cursor := vram0, cursor0;
    }

    /** The screen shows the end of the tape. */
    ghost predicate Shows(t: Tape)
      reads this, vram
    {
      && vram.Length == VIDEO_BYTES && TapeOk(t) && cursor == t.pos - Top(t)
      && Cells(vram[..]) == t.cells[Top(t)..]
    }

    /** mov of a character and an attribute to cell `bx`, which bx holds doubled; false when the
        offset is beyond the segment. */
    method Write(bx: nat, ch: nat) returns (ok: bool)
      requires vram.Length == VIDEO_BYTES && bx < 0x1_0000
      modifies vram
      ensures ok <==> U16(2 * bx) < VIDEO_BYTES
      ensures !ok ==> vram[..] == old(vram[..])
      ensures ok && bx < CELLS ==> Cells(vram[..]) == old(Cells(vram[..]))[bx := Cell(ch, ATTRIBUTE)]
    {
      var offset := U16(2 * bx);
      if offset >= vram.Length { return false; }
      assert offset + 1 < vram.Length;
      vram[offset] := ch;
      vram[offset + 1] := ATTRIBUTE;
      ok := true;
    }

    /** rep movsd: 960 double words from the second row to the first, upwards. */
    method MoveRows()
      requires vram.Length == VIDEO_BYTES
      modifies vram
      ensures forall k :: 0 <= k < 3840 ==> vram[k] == old(vram[k + 160])
      ensures forall k :: 3840 <= k < vram.Length ==> vram[k] == old(vram[k])
    {
      var ecx, esi, edi := 960, 0xa0, 0;
      while ecx > 0
        invariant 0 <= ecx <= 960 && edi == 4 * (960 - ecx) && esi == edi + 160
        invariant forall k :: 0 <= k < edi ==> vram[k] == old(vram[k + 160])
        invariant forall k :: edi <= k < vram.Length ==> vram[k] == old(vram[k])
      {
        vram[edi], vram[edi + 1], vram[edi + 2], vram[edi + 3] :=
          vram[esi], vram[esi + 1], vram[esi + 2], vram[esi + 3];
        esi, edi, ecx := esi + 4, edi + 4, ecx - 1;
      }
    }

    /** .cls: 80 blank cells from byte 3840 on. */
    method ClearLast()
      requires vram.Length == VIDEO_BYTES
      modifies vram
      ensures forall k :: 0 <= k < 3840 ==> vram[k] == old(vram[k])
      ensures forall i :: 1920 <= i < 2000 ==> vram[2 * i] == BLANK_CHAR && vram[2 * i + 1] == ATTRIBUTE
    {
      var ebx, ecx := 3840, 80;
      while ecx > 0
        invariant 0 <= ecx <= 80 && ebx == 3840 + 2 * (80 - ecx)
        invariant forall k :: 0 <= k < 3840 ==> vram[k] == old(vram[k])
        invariant forall i :: 1920 <= i < 2000 - ecx ==> vram[2 * i] == BLANK_CHAR && vram[2 * i + 1] == ATTRIBUTE
      {
        vram[ebx] := BLANK_CHAR;
        vram[ebx + 1] := ATTRIBUTE;
        ebx, ecx := ebx + 2, ecx - 1;
      }
    }

    /** .roll_screen: the overlapping copy goes upwards, so no row is lost. */
    method Roll()
      requires vram.Length == VIDEO_BYTES
      modifies vram
      ensures Cells(vram[..]) == Scrolled(old(Cells(vram[..])))
    {
      ghost var s := Cells(vram[..]);
      ghost var m := vram[..];
      MoveRows();
      ClearLast();
      forall i | 0 <= i < CELLS
        ensures Cells(vram[..])[i] == Scrolled(s)[i]
      {
        if i < 1920 {
          assert vram[2 * i] == m[2 * i + 160] && vram[2 * i + 1] == m[2 * i + 161];
          assert s[i + 80] == Cell(m[2 * (i + 80)], m[2 * (i + 80) + 1]);
        }
      }
    }

    /** .is_line_feed up to .set_cursor: the start of the next row, scrolling behind the last. */
    method LineFeed(bx0: nat) returns (bx: nat)
      requires vram.Length == VIDEO_BYTES && bx0 <= CELLS
      modifies vram
      ensures bx == if NextRow(bx0) < CELLS then NextRow(bx0) else 1920
      ensures Cells(vram[..]) == if NextRow(bx0) < CELLS then old(Cells(vram[..])) else Scrolled(old(Cells(vram[..])))
    {
      bx := bx0;
      var dx := bx % 80;
      bx := U16(bx - dx);
      bx := U16(bx + 80);
      if Signed(bx) < 2000 { return; }
      Roll();
      bx := 1920;
    }

    /** .put_other: the cell is written and the cursor steps on, to the next row behind the last
        cell; false when the write faults. */
    method PutOther(c: nat, bx0: nat) returns (bx: nat, ok: bool)
      requires vram.Length == VIDEO_BYTES && bx0 < CELLS
      modifies vram
      ensures ok && bx == (if bx0 + 1 < CELLS then bx0 + 1 else 1920)
      ensures var s := old(Cells(vram[..]))[bx0 := Cell(c, ATTRIBUTE)];
              Cells(vram[..]) == if bx0 + 1 < CELLS then s else Scrolled(s)
    {
      ok := Write(bx0, c);
      bx := U16(bx0 + 1);
      if Signed(bx) < 2000 { return; }
      bx := LineFeed(bx);
    }

    /** .is_backspace: the cell before is blanked; false when the write faults. */
    method Backspace(bx0: nat) returns (bx: nat, ok: bool)
      requires vram.Length == VIDEO_BYTES && bx0 < CELLS
      modifies vram
      ensures ok <==> bx0 > 0
      ensures ok ==> bx == bx0 - 1 && Cells(vram[..]) == old(Cells(vram[..]))[bx0 - 1 := BLANK]
      ensures !ok ==> bx == 0xffff && vram[..] == old(vram[..])
    {
      bx := U16(bx0 as int - 1);
      ok := Write(bx, BLANK_CHAR);
    }

    /** put_char; false when a write faults, which is when a backspace meets the first cell. */
    method PutChar(c: nat, ghost t: Tape) returns (ok: bool)
      requires Shows(t) && c < 0x100
      modifies this, vram
      ensures ok <==> !(c == BS && old(cursor) == 0)
      ensures !ok ==> Shows(t)
      ensures ok ==> Shows(TapeStep(t, c)) && cursor < CELLS
    {
      ghost var s, k := Cells(vram[..]), cursor;
      var bx := cursor;
      ok := true;
      if c == CR || c == LF {
        bx := LineFeed(bx);
        FeedShows(t, s, k);
      } else if c == BS {
        bx, ok := Backspace(bx);
        if !ok { return; }
        StepBackShows(t, s, k);
      } else {
        bx, ok := PutOther(c, bx);
        StepOnShows(t, s, k, c);
      }
      TapeStepOk(t, c);
      cursor := bx;
    }
  }

  /** Rows of the tape and of the screen begin at the same cells. */
  lemma RowsAgree(t: Tape)
    requires TapeOk(t)
    ensures NextRow(t.pos) - Top(t) == NextRow(t.pos - Top(t))
    ensures NextRow(t.pos) <= |t.cells|
  {
  }

  lemma MoveShows(cells: seq<Cell>, s: seq<Cell>, top: int, pos: nat, next: nat)
    requires |cells| == top + CELLS && top >= 0 && s == cells[top..] && next <= |cells|
    ensures var t := MoveTo(cells, next);
            Top(t) == (if next < |cells| then top else top + 80) &&
            Top(t) >= 0 && t.cells[Top(t)..] == if next < |cells| then s else Scrolled(s)
  {
    if next >= |cells| {
      assert (cells + BlankRow())[top + 80..] == cells[top..][80..] + BlankRow();
    }
  }

  /** The screen `s` with the cursor at `k` shows the end of the tape. */
  ghost predicate Window(t: Tape, s: seq<Cell>, k: int) {
    TapeOk(t) && |s| == CELLS && k == t.pos - Top(t) && s == t.cells[Top(t)..]
  }

  lemma FeedShows(t: Tape, s: seq<Cell>, k: nat)
    requires Window(t, s, k)
    ensures if NextRow(k) < CELLS then Window(TapeStep(t, LF), s, NextRow(k))
            else Window(TapeStep(t, LF), Scrolled(s), 1920)
    ensures TapeStep(t, CR) == TapeStep(t, LF)
  {
    RowsAgree(t);
    TapeStepOk(t, LF);
    MoveShows(t.cells, s, Top(t), t.pos, NextRow(t.pos));
  }

  lemma StepBackShows(t: Tape, s: seq<Cell>, k: nat)
    requires Window(t, s, k) && k > 0
    ensures Window(TapeStep(t, BS), s[k - 1 := BLANK], k - 1)
  {
    TapeStepOk(t, BS);
    assert t.cells[t.pos - 1 := BLANK][Top(t)..] == s[k - 1 := BLANK];
  }

  lemma StepOnShows(t: Tape, s: seq<Cell>, k: nat, c: nat)
    requires Window(t, s, k) && c != CR && c != LF && c != BS
    ensures var s' := s[k := Cell(c, ATTRIBUTE)];
            if k + 1 < CELLS then Window(TapeStep(t, c), s', k + 1) else Window(TapeStep(t, c), Scrolled(s'), 1920)
  {
    var s', cells := s[k := Cell(c, ATTRIBUTE)], t.cells[t.pos := Cell(c, ATTRIBUTE)];
    assert cells[Top(t)..] == s';
    TapeStepOk(t, c);
    MoveShows(cells, s', Top(t), t.pos, t.pos + 1);
  }

  // ----- Whole texts -----

  /** A text with no backspace on the first cell of the screen. */
  ghost predicate Legal(t: Tape, s: seq<nat>)
    requires TapeOk(t)
    decreases |s|
  {
    s == [] ||
    (s[0] < 0x100 && !(s[0] == BS && t.pos == Top(t)) &&
     (TapeStepOk(t, s[0]); Legal(TapeStep(t, s[0]), s[1..])))
  }

  function TapeRun(t: Tape, s: seq<nat>): Tape
    requires t.pos < |t.cells|
    decreases |s|
  {
    if s == [] then t
    else
      var t' := TapeStep(t, s[0]);
      if t'.pos < |t'.cells| then TapeRun(t', s[1..]) else t'
  }

  lemma {:induction false} TapeRunOk(t: Tape, s: seq<nat>)
    requires TapeOk(t) && Legal(t, s)
    ensures TapeOk(TapeRun(t, s))
    decreases |s|
  {
    if s != [] {
      TapeStepOk(t, s[0]);
      TapeRunOk(TapeStep(t, s[0]), s[1..]);
    }
  }

  /** put_str on a NUL-terminated message: the screen shows the end of the tape that the whole text
      leaves. False when a write faults. */
  method PutStr(screen: Screen, message: seq<nat>, ghost t: Tape) returns (ok: bool)
    requires screen.Shows(t) && 0 in message && forall i :: 0 <= i < |message| ==> message[i] < 0x100
    modifies screen, screen.vram
    ensures ok <==> Legal(t, Text(message))
    ensures ok ==> screen.Shows(TapeRun(t, Text(message))) && screen.cursor < CELLS
  {
    var i := 0;
    ghost var u := t;
    TextAt(message, 0);
    while message[i] != 0
      invariant i < |message| && 0 in message[i..] && screen.Shows(u)
      invariant Legal(t, Text(message)) <==> Legal(u, Text(message[i..]))
      invariant TapeRun(t, Text(message)) == TapeRun(u, Text(message[i..]))
      decreases |message| - i
    {
      TextAt(message, i);
      ok := screen.PutChar(message[i], u);
      if !ok { return; }
      TapeStepOk(u, message[i]);
      u := TapeStep(u, message[i]);
      i := i + 1;
    }
    ok := true;
  }

  /** A message up to its NUL. */
  function Text(message: seq<nat>): seq<nat> {
    if message == [] || message[0] == 0 then [] else [message[0]] + Text(message[1..])
  }

  /** That is all of it in front of the first NUL. */
  lemma {:induction false} TextUpTo(message: seq<nat>, k: nat)
    requires k < |message| && message[k] == 0 && forall i :: 0 <= i < k ==> message[i] != 0
    ensures Text(message) == message[..k]
  {
    if k > 0 {
      TextUpTo(message[1..], k - 1);
      assert message[..k] == [message[0]] + message[1..][..k - 1];
    }
  }

  lemma TextAt(message: seq<nat>, i: nat)
    requires i < |message| && 0 in message[i..]
    ensures message[0..] == message
    ensures message[i] != 0 ==>
              && i + 1 < |message| && 0 in message[i + 1..]
              && Text(message[i..]) == [message[i]] + Text(message[i + 1..])
              && ([message[i]] + Text(message[i + 1..]))[1..] == Text(message[i + 1..])
  {
    if message[i] != 0 {
      assert message[i..][1..] == message[i + 1..];
      var k :| 0 <= k < |message[i..]| && message[i..][k] == 0;
      assert message[i + 1..][k - 1] == 0;
    }
  }

  // ----- What the tape shows -----

  predicate Printable(c: nat) {
    c != CR && c != LF && c != BS
  }

  /** A carriage return and a line feed alike go to the start of the next row, and erase nothing. */
  lemma FeedGoesDown(t: Tape, c: nat)
    requires TapeOk(t) && (c == CR || c == LF)
    ensures var t' := TapeStep(t, c);
            && t'.pos % COLUMNS == 0 && t.pos < t'.pos <= t.pos + COLUMNS && |t.cells| <= |t'.cells|
            && t'.cells[..|t.cells|] == t.cells && forall i :: |t.cells| <= i < |t'.cells| ==> t'.cells[i] == BLANK
  {
    assert NextRow(t.pos) == t.pos - t.pos % COLUMNS + COLUMNS;
    TapeStepOk(t, c);
  }

  /** A backspace undoes a character, also one that scrolled the screen: the cursor is where it was, on a
      blank, and no other cell has changed. */
  lemma BackspaceErases(t: Tape, c: nat)
    requires TapeOk(t) && Printable(c) && c < 0x100
    ensures Legal(t, [c, BS])
    ensures var t' := TapeRun(t, [c, BS]);
            && t'.pos == t.pos && |t.cells| <= |t'.cells|
            && t'.cells[..|t.cells|] == t.cells[t.pos := BLANK]
            && forall i :: |t.cells| <= i < |t'.cells| ==> t'.cells[i] == BLANK
  {
    var u := TapeStep(t, c);
    TapeStepOk(t, c);
    TapeStepOk(u, BS);
    assert [c, BS][1..] == [BS] && [BS][1..] == [] && TapeRun(TapeStep(u, BS), []) == TapeStep(u, BS);
    assert TapeRun(u, [BS]) == TapeStep(u, BS);
  }

  /** What left the screen never changes again. */
  lemma {:induction false} AboveIsKept(t: Tape, s: seq<nat>)
    requires TapeOk(t) && Legal(t, s)
    ensures |t.cells| <= |TapeRun(t, s).cells| && TapeRun(t, s).cells[..Top(t)] == t.cells[..Top(t)]
    decreases |s|
  {
    if s != [] {
      TapeStepOk(t, s[0]);
      var t' := TapeStep(t, s[0]);
      AboveIsKept(t', s[1..]);
      assert t'.cells[..Top(t)] == t.cells[..Top(t)];
      assert TapeRun(t, s).cells[..Top(t)] == TapeRun(t, s).cells[..Top(t')][..Top(t)] == t'.cells[..Top(t')][..Top(t)];
    }
  }

  /** Characters that neither end a row nor step back stand on the tape one behind the other, across
      the ends of rows and through every scroll. */
  lemma {:induction false} TextStands(t: Tape, s: seq<nat>)
    requires TapeOk(t) && forall i :: 0 <= i < |s| ==> Printable(s[i]) && s[i] < 0x100
    ensures TapeOk(TapeRun(t, s)) && TapeRun(t, s).pos == t.pos + |s|
    ensures forall i :: 0 <= i < |s| ==> TapeRun(t, s).cells[t.pos + i] == Cell(s[i], ATTRIBUTE)
    ensures forall i :: 0 <= i < t.pos ==> TapeRun(t, s).cells[i] == t.cells[i]
    decreases |s|
  {
    if s != [] {
      TapeStepOk(t, s[0]);
      var t' := TapeStep(t, s[0]);
      TextStands(t', s[1..]);
      var u := TapeRun(t, s);
      assert u.cells[t.pos] == t'.cells[t.pos] == Cell(s[0], ATTRIBUTE);
      forall i | 0 <= i < |s|
        ensures u.cells[t.pos + i] == Cell(s[i], ATTRIBUTE)
      {
        if i > 0 { assert u.cells[t'.pos + (i - 1)] == Cell(s[1..][i - 1], ATTRIBUTE); }
      }
    }
  }
}
