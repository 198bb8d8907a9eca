/*
 * The 40x24 memory-mapped text screen of src/devices/text_screen.cpp.
 *
 * Video RAM is mapped at 0xFC00 (row r, column c at offset 40 * r + c);
 * 0xFFFC and 0xFFFD hold the cursor column and row, 0xFFFE the control
 * register (bit 0 auto-scroll, bit 1 clear-screen) and 0xFFFF is the
 * character port that interprets what is written to it as terminal output.
 *
 * The effect of each cursor operation is first given as a pure function on a
 * `Screen` value (the cells and the cursor); the class's methods, which
 * update the fields step by step as the C++ does, are proved to have exactly
 * that effect, and the lemmas state what the functions promise.
 */
module TextScreens {
  import opened Bits

  const WIDTH: nat := 40
  const HEIGHT: nat := 24
  const BUFFER_SIZE: nat := 960

  const VIDEO_RAM_START: Word := 0xFC00
  const VIDEO_RAM_END: Word := 0xFFFB
  const CURSOR_COL_ADDR: Word := 0xFFFC
  const CURSOR_ROW_ADDR: Word := 0xFFFD
  const CONTROL_ADDR: Word := 0xFFFE
  const CHAR_OUT_ADDR: Word := 0xFFFF

  const CTRL_AUTO_SCROLL: bv8 := 0x01
  const CTRL_CLEAR_SCREEN: bv8 := 0x02

  const SPACE: bv8 := 0x20
  const NEWLINE: bv8 := 0x0A
  const RETURN: bv8 := 0x0D
  const TAB: bv8 := 0x09
  const BACKSPACE: bv8 := 0x08

  /** The cells of the screen and the cursor position. */
  datatype Screen = Screen(cells: seq<bv8>, col: nat, row: nat)

  /** The cursor invariant: the cursor is on the screen and the buffer has one cell per position. */
  predicate ValidScreen(s: Screen)
  {
    |s.cells| == BUFFER_SIZE && s.col < WIDTH && s.row < HEIGHT
  }

  function Blank(): (b: seq<bv8>)
    ensures |b| == BUFFER_SIZE && forall i :: 0 <= i < BUFFER_SIZE ==> b[i] == SPACE
  {
    seq(BUFFER_SIZE, _ => SPACE)
  }

  /** The buffer moved up one row, with a blank last row. */
  function ScrolledUp(cells: seq<bv8>): (r: seq<bv8>)
    requires |cells| == BUFFER_SIZE
    ensures |r| == BUFFER_SIZE
  {
    seq(BUFFER_SIZE, k requires 0 <= k < BUFFER_SIZE => if k < BUFFER_SIZE - WIDTH then cells[k + WIDTH] else SPACE)
  }

  /** After a scroll, row r shows what row r + 1 showed, and the last row is blank. */
  lemma ScrollMovesRowsUp(cells: seq<bv8>, r: nat, c: nat)
    requires |cells| == BUFFER_SIZE && r < HEIGHT && c < WIDTH
    ensures r < HEIGHT - 1 ==> ScrolledUp(cells)[r * WIDTH + c] == cells[(r + 1) * WIDTH + c]
    ensures r == HEIGHT - 1 ==> ScrolledUp(cells)[r * WIDTH + c] == SPACE
  {
  }

  /** Moving to column 0 of the next row: scrolling at the bottom with auto-scroll, wrapping to the top without. */
  function LineFeed(s: Screen, autoScroll: bool): (r: Screen)
    requires ValidScreen(s)
    ensures ValidScreen(r) && r.col == 0
  {
    if s.row + 1 < HEIGHT then s.(col := 0, row := s.row + 1)
    else if autoScroll then Screen(ScrolledUp(s.cells), 0, HEIGHT - 1)
    else s.(col := 0, row := 0)
  }

  /** `advanceCursor`: one cell right, continuing on the next line after column 39. */
  function Advanced(s: Screen, autoScroll: bool): (r: Screen)
    requires ValidScreen(s)
    ensures ValidScreen(r)
  {
    if s.col + 1 < WIDTH then s.(col := s.col + 1) else LineFeed(s, autoScroll)
  }

  /** Stores `ch` in the cell under the cursor. */
  function Put(s: Screen, ch: bv8): (r: Screen)
    requires ValidScreen(s)
    ensures ValidScreen(r) && r.col == s.col && r.row == s.row
  {
    s.(cells := s.cells[s.row * WIDTH + s.col := ch])
  }

  /** One cell back, to column 39 of the previous row from column 0; nothing is erased. */
  function Backspaced(s: Screen): (r: Screen)
    requires ValidScreen(s)
    ensures ValidScreen(r)
  {
    if s.col > 0 then s.(col := s.col - 1)
    else if s.row > 0 then s.(col := WIDTH - 1, row := s.row - 1)
    else s
  }

  /** The tab stop after column `col`: the next multiple of 8. */
  function NextTab(col: nat): (t: nat)
    ensures col < t <= col + 8 && t % 8 == 0
  {
    (col / 8 + 1) * 8
  }

  /** `n` rounds of the tab loop's body: blank the cell under the cursor, then advance. */
  function TabFill(s: Screen, autoScroll: bool, n: nat): (r: Screen)
    requires ValidScreen(s)
    ensures ValidScreen(r)
    decreases n
  {
    if n == 0 then s else TabFill(Advanced(Put(s, SPACE), autoScroll), autoScroll, n - 1)
  }

  /** The byte is printable ASCII (0x20-0x7E). */
  predicate Printable(c: bv8)
  {
    0x20 <= c <= 0x7E
  }

  /**
   * `processCharacter` with the tab loop bounded by the distance to the
   * next stop, so that a tab at columns 32-39 blanks the rest of the line
   * and moves to the next one (see `TabLoopNeverExits` for the loop as written).
   */
  function Processed(s: Screen, c: bv8, autoScroll: bool): (r: Screen)
    requires ValidScreen(s)
    ensures ValidScreen(r)
  {
    if c == NEWLINE then LineFeed(s, autoScroll)
    else if c == RETURN then s.(col := 0)
    else if c == TAB then TabFill(s, autoScroll, NextTab(s.col) - s.col)
    else if c == BACKSPACE then Backspaced(s)
    else if Printable(c) then Advanced(Put(s, c), autoScroll)
    else s
  }

  lemma {:induction false} TabFillStep(s: Screen, autoScroll: bool, n: nat)
    requires ValidScreen(s)
    ensures TabFill(s, autoScroll, n + 1) == Advanced(Put(TabFill(s, autoScroll, n), SPACE), autoScroll)
    decreases n
  {
    if n > 0 {
      TabFillStep(Advanced(Put(s, SPACE), autoScroll), autoScroll, n - 1);
    }
  }

  /**
   * Before the line end, `n` rounds of the tab body blank the `n` cells from
   * the cursor and leave the cursor `n` columns further right.
   */
  lemma {:induction false} TabFillWithinLine(s: Screen, autoScroll: bool, n: nat)
    requires ValidScreen(s) && s.col + n < WIDTH
    ensures TabFill(s, autoScroll, n).col == s.col + n
    ensures TabFill(s, autoScroll, n).row == s.row
    ensures forall i :: 0 <= i < BUFFER_SIZE ==>
              TabFill(s, autoScroll, n).cells[i] ==
              (if s.row * WIDTH + s.col <= i < s.row * WIDTH + s.col + n then SPACE else s.cells[i])
    decreases n
  {
    if n > 0 {
      TabFillWithinLine(s, autoScroll, n - 1);
      TabFillStep(s, autoScroll, n - 1);
    }
  }

  /** A printable character is stored under the cursor, which then moves one cell right. */
  lemma PrintableStoresAndAdvances(s: Screen, c: bv8, autoScroll: bool)
    requires ValidScreen(s) && Printable(c) && s.col + 1 < WIDTH
    ensures Processed(s, c, autoScroll) == Screen(s.cells[s.row * WIDTH + s.col := c], s.col + 1, s.row)
  {
  }

  /** A printable character in the last column is stored and the cursor moves to the next line. */
  lemma PrintableAtLineEnd(s: Screen, c: bv8, autoScroll: bool)
    requires ValidScreen(s) && Printable(c) && s.col == WIDTH - 1 && s.row + 1 < HEIGHT
    ensures Processed(s, c, autoScroll) == Screen(s.cells[s.row * WIDTH + s.col := c], 0, s.row + 1)
  {
  }

  /** A newline on the last row scrolls (auto-scroll on) or returns to the top-left (off). */
  lemma NewlineAtBottom(s: Screen, autoScroll: bool)
    requires ValidScreen(s) && s.row == HEIGHT - 1
    ensures autoScroll ==> Processed(s, NEWLINE, autoScroll) == Screen(ScrolledUp(s.cells), 0, HEIGHT - 1)
    ensures !autoScroll ==> Processed(s, NEWLINE, autoScroll) == Screen(s.cells, 0, 0)
  {
  }

  /** Carriage return, backspace and unprintable bytes never change the cells. */
  lemma ControlKeepsCells(s: Screen, c: bv8, autoScroll: bool)
    requires ValidScreen(s) && c != NEWLINE && c != TAB && !Printable(c)
    ensures Processed(s, c, autoScroll).cells == s.cells
    ensures c == RETURN ==> Processed(s, c, autoScroll) == s.(col := 0)
    ensures c != RETURN && c != BACKSPACE ==> Processed(s, c, autoScroll) == s
  {
  }

  /** Backspace from (0,0) stays put; otherwise it undoes the cursor move of a printable character. */
  lemma BackspaceUndoesAdvance(s: Screen, c: bv8, autoScroll: bool)
    requires ValidScreen(s) && Printable(c) && (s.col + 1 < WIDTH || s.row + 1 < HEIGHT)
    ensures var t := Processed(Processed(s, c, autoScroll), BACKSPACE, autoScroll);
            t.col == s.col && t.row == s.row && t.cells[s.row * WIDTH + s.col] == c
  {
  }

  /**
   * A tab from a column before 32 blanks the cells up to the next multiple
   * of 8 and leaves the cursor there on the same row.
   */
  lemma TabToNextStop(s: Screen, autoScroll: bool)
    requires ValidScreen(s) && s.col < 32
    ensures Processed(s, TAB, autoScroll).col == NextTab(s.col)
    ensures Processed(s, TAB, autoScroll).row == s.row
    ensures forall i :: 0 <= i < BUFFER_SIZE ==>
              Processed(s, TAB, autoScroll).cells[i] ==
              (if s.row * WIDTH + s.col <= i < s.row * WIDTH + NextTab(s.col) then SPACE else s.cells[i])
  {
    TabFillWithinLine(s, autoScroll, NextTab(s.col) - s.col);
  }

  /**
   * A tab from columns 32-39 blanks the rest of the line and continues at
   * the start of the next one (with the usual wrap or scroll at the bottom).
   */
  lemma TabWrapsAtLineEnd(s: Screen, autoScroll: bool)
    requires ValidScreen(s) && 32 <= s.col
    ensures var line := Put(TabFill(s, autoScroll, WIDTH - 1 - s.col), SPACE);
            Processed(s, TAB, autoScroll) == LineFeed(line, autoScroll) &&
            forall i :: 0 <= i < BUFFER_SIZE ==>
              line.cells[i] == (if s.row * WIDTH + s.col <= i < (s.row + 1) * WIDTH then SPACE else s.cells[i])
    ensures Processed(s, TAB, autoScroll).col == 0
    ensures s.row + 1 < HEIGHT ==> Processed(s, TAB, autoScroll).row == s.row + 1
    ensures s.row + 1 < HEIGHT ==>
              forall i :: 0 <= i < BUFFER_SIZE ==>
                Processed(s, TAB, autoScroll).cells[i] ==
                (if s.row * WIDTH + s.col <= i < (s.row + 1) * WIDTH then SPACE else s.cells[i])
  {
    var n := WIDTH - 1 - s.col;
    TabFillWithinLine(s, autoScroll, n);
    TabFillStep(s, autoScroll, n);
    assert NextTab(s.col) - s.col == n + 1;
    var filled := TabFill(s, autoScroll, n);
    var line := Put(filled, SPACE);
    assert line.cells == filled.cells[s.row * WIDTH + WIDTH - 1 := SPACE];
    assert Advanced(line, autoScroll) == LineFeed(line, autoScroll);
  }

  // ---------------------------------------------------------------
  // The tab loop as the source writes it
  // ---------------------------------------------------------------

  /** The source's loop guard, with `nextTab` computed once before the loop. */
  predicate TabGuard(s: Screen, nextTab: nat)
  {
    s.col < nextTab && s.col < WIDTH
  }

  /**
   * From columns 32-39 the stop is 40, but advancing past column 39 sets the
   * column back to 0, so the guard holds after every number of rounds: the
   * loop as written never exits (and keeps blanking and scrolling the screen).
   */
  lemma {:induction false} TabLoopNeverExits(s: Screen, autoScroll: bool, n: nat)
    requires ValidScreen(s) && 32 <= s.col
    ensures NextTab(s.col) == WIDTH
    ensures TabGuard(TabFill(s, autoScroll, n), NextTab(s.col))
    decreases n
  {
    if n > 0 {
      TabLoopNeverExits(s, autoScroll, n - 1);
      TabFillStep(s, autoScroll, n - 1);
    }
  }

  /** From columns 0-31 the loop as written stops exactly where the bounded loop stops. */
  lemma TabLoopAsWrittenExits(s: Screen, autoScroll: bool, k: nat)
    requires ValidScreen(s) && s.col < 32 && k <= NextTab(s.col) - s.col
    ensures TabGuard(TabFill(s, autoScroll, k), NextTab(s.col)) <==> k < NextTab(s.col) - s.col
  {
    TabFillWithinLine(s, autoScroll, k);
  }

  // ---------------------------------------------------------------
  // The text returned by getBuffer
  // ---------------------------------------------------------------

  /** Unprintable bytes are shown as spaces. */
  function Visible(b: bv8): (v: bv8)
    ensures Printable(v)
    ensures Printable(b) ==> v == b
  {
    if b < 0x20 || b > 0x7E then SPACE else b
  }

  function RowText(cells: seq<bv8>, r: nat): (t: seq<bv8>)
    requires |cells| == BUFFER_SIZE && r < HEIGHT
    ensures |t| == WIDTH
  {
    seq(WIDTH, c requires 0 <= c < WIDTH => Visible(cells[r * WIDTH + c]))
  }

  /** The first `n` rows, each followed by a newline except the last row of the screen. */
  function RenderedRows(cells: seq<bv8>, n: nat): (t: seq<bv8>)
    requires |cells| == BUFFER_SIZE && n <= HEIGHT
    ensures |t| == n * (WIDTH + 1) - (if n == HEIGHT then 1 else 0)
  {
    if n == 0 then []
    else RenderedRows(cells, n - 1) + RowText(cells, n - 1) + (if n < HEIGHT then [NEWLINE] else [])
  }

  /**
   * The rendered text: row r, column c sits at r * 41 + c and shows the
   * cell's visible form, and a newline ends each of the first 23 rows.
   */
  lemma {:induction false} RenderedLayout(cells: seq<bv8>, n: nat, r: nat, c: nat)
    requires |cells| == BUFFER_SIZE && n <= HEIGHT && r < n && c < WIDTH
    ensures RenderedRows(cells, n)[r * (WIDTH + 1) + c] == Visible(cells[r * WIDTH + c])
    ensures r < HEIGHT - 1 ==> RenderedRows(cells, n)[r * (WIDTH + 1) + WIDTH] == NEWLINE
    decreases n
  {
    if r < n - 1 {
      RenderedLayout(cells, n - 1, r, c);
    }
  }

  class TextScreen {
    var videoBuffer: seq<bv8>
    var cursorCol: nat
    var cursorRow: nat
    var controlReg: bv8

    predicate Valid()
      reads this
    {
      ValidScreen(State())
    }

    function State(): Screen
      reads this
    {
      Screen(videoBuffer, cursorCol, cursorRow)
    }

    function AutoScroll(): bool
      reads this
    {
      controlReg & CTRL_AUTO_SCROLL != 0
    }

    /** A blank screen, the cursor at (0,0) and auto-scroll on. */
    constructor()
      ensures Valid() && State() == Screen(Blank(), 0, 0) && controlReg == CTRL_AUTO_SCROLL
    {
      videoBuffer := Blank();
      cursorCol := 0;
      cursorRow := 0;
      controlReg := CTRL_AUTO_SCROLL;
    }

    /** The whole top kilobyte of the address space: video RAM and the four registers above it. */
    predicate HandlesRead(address: Word)
      ensures HandlesRead(address) <==> address / 0x400 == 0x3F
    {
      VIDEO_RAM_START <= address <= CHAR_OUT_ADDR
    }

    /** Writes claim the same kilobyte. */
    predicate HandlesWrite(address: Word)
      ensures HandlesWrite(address) <==> address / 0x400 == 0x3F
    {
      VIDEO_RAM_START <= address <= CHAR_OUT_ADDR
    }

    /** The byte a read returns: a cell, a cursor coordinate, the control register, or 0. */
    function ReadValue(address: Word): (v: bv8)
      requires Valid()
      reads this
      ensures 0 <= address - VIDEO_RAM_START < BUFFER_SIZE ==> v == videoBuffer[address - VIDEO_RAM_START]
      ensures address == CURSOR_COL_ADDR ==> v as int == cursorCol
      ensures address == CURSOR_ROW_ADDR ==> v as int == cursorRow
      ensures address == CONTROL_ADDR ==> v == controlReg
      ensures VIDEO_RAM_START + BUFFER_SIZE <= address <= VIDEO_RAM_END || address == CHAR_OUT_ADDR || !HandlesRead(address) ==> v == 0
    {
      if VIDEO_RAM_START <= address <= VIDEO_RAM_END then
        (if address - VIDEO_RAM_START < BUFFER_SIZE then videoBuffer[address - VIDEO_RAM_START] else 0)
      else if address == CURSOR_COL_ADDR then ByteOfValue(cursorCol)
      else if address == CURSOR_ROW_ADDR then ByteOfValue(cursorRow)
      else if address == CONTROL_ADDR then controlReg
      else 0
    }

    /** Reads have no side effect; the 60 bytes between the buffer's end and 0xFFFB read 0. */
    method Read(address: Word) returns (value: bv8)
      requires Valid()
      ensures value == ReadValue(address)
      ensures address == CURSOR_COL_ADDR ==> value as int == cursorCol
      ensures address == CURSOR_ROW_ADDR ==> value as int == cursorRow
    {
      if VIDEO_RAM_START <= address <= VIDEO_RAM_END {
        var offset := address - VIDEO_RAM_START;
        if offset < BUFFER_SIZE {
          return videoBuffer[offset];
        }
      } else if address == CURSOR_COL_ADDR {
        return ByteOfValue(cursorCol);
      } else if address == CURSOR_ROW_ADDR {
        return ByteOfValue(cursorRow);
      } else if address == CONTROL_ADDR {
        return controlReg;
      } else if address == CHAR_OUT_ADDR {
        return 0;
      }
      return 0;
    }

    /** Fills the screen with spaces and homes the cursor; the control register is kept. */
    method Clear()
      modifies this
      ensures State() == Screen(Blank(), 0, 0) && controlReg == old(controlReg)
    {
      videoBuffer := Blank();
      cursorCol := 0;
      cursorRow := 0;
    }

    /** Coordinates are reduced modulo the screen size. */
    method SetCursorPosition(col: bv8, row: bv8)
      modifies this
      ensures cursorCol == col as int % WIDTH && cursorRow == row as int % HEIGHT
      ensures videoBuffer == old(videoBuffer) && controlReg == old(controlReg)
    {
      cursorCol := col as int % WIDTH;
      cursorRow := row as int % HEIGHT;
    }

    method SetAutoScroll(enabled: bool)
      modifies this
      ensures AutoScroll() == enabled
      ensures controlReg & !CTRL_AUTO_SCROLL == old(controlReg) & !CTRL_AUTO_SCROLL
      ensures State() == old(State())
    {
      if enabled {
        controlReg := controlReg | CTRL_AUTO_SCROLL;
      } else {
        controlReg := controlReg & !CTRL_AUTO_SCROLL;
      }
    }

    /** Moves every row up one, blanks the last row and puts the cursor at its start. */
    method ScrollUp()
      requires |videoBuffer| == BUFFER_SIZE
      modifies this
      ensures State() == Screen(ScrolledUp(old(videoBuffer)), 0, HEIGHT - 1)
      ensures controlReg == old(controlReg)
    {
      ghost var before := videoBuffer;
      var row := 0;
      while row < HEIGHT - 1
        invariant 0 <= row <= HEIGHT - 1 && |videoBuffer| == BUFFER_SIZE && controlReg == old(controlReg)
        invariant forall k :: 0 <= k < row * WIDTH ==> videoBuffer[k] == before[k + WIDTH]
        invariant forall k :: row * WIDTH <= k < BUFFER_SIZE ==> videoBuffer[k] == before[k]
      {
        var col := 0;
        while col < WIDTH
          invariant 0 <= col <= WIDTH && |videoBuffer| == BUFFER_SIZE && controlReg == old(controlReg)
          invariant forall k :: 0 <= k < row * WIDTH + col ==> videoBuffer[k] == before[k + WIDTH]
          invariant forall k :: row * WIDTH + col <= k < BUFFER_SIZE ==> videoBuffer[k] == before[k]
        {
          var dst := row * WIDTH + col;
          var src := (row + 1) * WIDTH + col;
          videoBuffer := videoBuffer[dst := videoBuffer[src]];
          col := col + 1;
        }
        row := row + 1;
      }
      var last := (HEIGHT - 1) * WIDTH;
      var col := 0;
      while col < WIDTH
        invariant 0 <= col <= WIDTH && |videoBuffer| == BUFFER_SIZE && controlReg == old(controlReg)
        invariant forall k :: 0 <= k < last ==> videoBuffer[k] == before[k + WIDTH]
        invariant forall k :: last <= k < last + col ==> videoBuffer[k] == SPACE
      {
        videoBuffer := videoBuffer[last + col := SPACE];
        col := col + 1;
      }
      assert videoBuffer == ScrolledUp(before);
      cursorCol := 0;
      cursorRow := HEIGHT - 1;
    }

    /** `advanceCursor`, with the effect of `Advanced`. */
    method AdvanceCursor()
      requires Valid()
      modifies this
      ensures State() == Advanced(old(State()), old(AutoScroll()))
      ensures controlReg == old(controlReg)
    {
      cursorCol := cursorCol + 1;
      if cursorCol >= WIDTH {
        cursorCol := 0;
        cursorRow := cursorRow + 1;
        if cursorRow >= HEIGHT {
          if controlReg & CTRL_AUTO_SCROLL != 0 {
            ScrollUp();
          } else {
            cursorRow := 0;
          }
        }
      }
    }

    /** The tab branch of `processCharacter`: blank and advance once per column up to the next stop. */
    method Tab()
      requires Valid()
      modifies this
      ensures State() == TabFill(old(State()), old(AutoScroll()), NextTab(old(cursorCol)) - old(cursorCol))
      ensures controlReg == old(controlReg)
    {
      ghost var start := State();
      var nextTab := (cursorCol / 8 + 1) * 8;
      var remaining := nextTab - cursorCol;
      ghost var done: nat := 0;
      while remaining > 0
        invariant Valid() && controlReg == old(controlReg)
        invariant 0 <= remaining && done + remaining == NextTab(start.col) - start.col
        invariant State() == TabFill(start, old(AutoScroll()), done)
        decreases remaining
      {
        var offset := cursorRow * WIDTH + cursorCol;
        videoBuffer := videoBuffer[offset := SPACE];
        AdvanceCursor();
        TabFillStep(start, old(AutoScroll()), done);
        done := done + 1;
        remaining := remaining - 1;
      }
    }

    /**
     * Interprets one byte written to the character port, with the effect of
     * `Processed`: the tab loop runs once per column up to the next stop.
     */
    method ProcessCharacter(c: bv8)
      requires Valid()
      modifies this
      ensures State() == Processed(old(State()), c, old(AutoScroll()))
      ensures controlReg == old(controlReg)
    {
      if c == NEWLINE {
        cursorCol := 0;
        cursorRow := cursorRow + 1;
        if cursorRow >= HEIGHT {
          if controlReg & CTRL_AUTO_SCROLL != 0 {
            ScrollUp();
          } else {
            cursorRow := 0;
          }
        }
        return;
      } else if c == RETURN {
        cursorCol := 0;
        return;
      } else if c == TAB {
        Tab();
        return;
      } else if c == BACKSPACE {
        if cursorCol > 0 {
          cursorCol := cursorCol - 1;
        } else if cursorRow > 0 {
          cursorRow := cursorRow - 1;
          cursorCol := WIDTH - 1;
        }
        return;
      }
      if 0x20 <= c <= 0x7E {
        var offset := cursorRow * WIDTH + cursorCol;
        videoBuffer := videoBuffer[offset := c];
        AdvanceCursor();
      }
    }

    /**
     * A cell write stores the byte; cursor writes are reduced modulo the
     * screen size; a control write with bit 1 clears the screen and stores
     * the value without bit 1; a character-port write is interpreted.
     */
    method Write(address: Word, value: bv8)
      requires Valid()
      modifies this
      ensures Valid()
      ensures VIDEO_RAM_START <= address <= VIDEO_RAM_END ==>
                cursorCol == old(cursorCol) && cursorRow == old(cursorRow) && controlReg == old(controlReg) &&
                videoBuffer == (if address - VIDEO_RAM_START < BUFFER_SIZE
                                then old(videoBuffer)[address - VIDEO_RAM_START := value] else old(videoBuffer))
      ensures address == CURSOR_COL_ADDR ==>
                State() == old(State()).(col := value as int % WIDTH) && controlReg == old(controlReg)
      ensures address == CURSOR_ROW_ADDR ==>
                State() == old(State()).(row := value as int % HEIGHT) && controlReg == old(controlReg)
      ensures address == CONTROL_ADDR && value & CTRL_CLEAR_SCREEN != 0 ==>
                State() == Screen(Blank(), 0, 0) && controlReg == value & !CTRL_CLEAR_SCREEN
      ensures address == CONTROL_ADDR && value & CTRL_CLEAR_SCREEN == 0 ==>
                State() == old(State()) && controlReg == value
      ensures address == CHAR_OUT_ADDR ==>
                State() == Processed(old(State()), value, old(AutoScroll())) && controlReg == old(controlReg)
      ensures !HandlesWrite(address) ==> State() == old(State()) && controlReg == old(controlReg)
    {
      if VIDEO_RAM_START <= address <= VIDEO_RAM_END {
        var offset := address - VIDEO_RAM_START;
        if offset < BUFFER_SIZE {
          videoBuffer := videoBuffer[offset := value];
        }
      } else if address == CURSOR_COL_ADDR {
        cursorCol := value as int % WIDTH;
      } else if address == CURSOR_ROW_ADDR {
        cursorRow := value as int % HEIGHT;
      } else if address == CONTROL_ADDR {
        if value & CTRL_CLEAR_SCREEN != 0 {
          Clear();
          controlReg := value & !CTRL_CLEAR_SCREEN;
        } else {
          controlReg := value;
        }
      } else if address == CHAR_OUT_ADDR {
        ProcessCharacter(value);
      }
    }

    /** The screen as text: 24 rows of 40 visible characters joined by newlines. */
    method GetBuffer() returns (text: seq<bv8>)
      requires Valid()
      ensures text == RenderedRows(videoBuffer, HEIGHT)
    {
      text := [];
      var row := 0;
      while row < HEIGHT
        invariant 0 <= row <= HEIGHT
        invariant text == RenderedRows(videoBuffer, row)
      {
        var col := 0;
        while col < WIDTH
          invariant 0 <= col <= WIDTH
          invariant text == RenderedRows(videoBuffer, row) + RowText(videoBuffer, row)[..col]
        {
          var offset := row * WIDTH + col;
          var c := videoBuffer[offset];
          if c < 0x20 || c > 0x7E {
            text := text + [SPACE];
          } else {
            text := text + [c];
          }
          assert RowText(videoBuffer, row)[..col + 1] == RowText(videoBuffer, row)[..col] + [Visible(c)];
          col := col + 1;
        }
        assert RowText(videoBuffer, row)[..WIDTH] == RowText(videoBuffer, row);
        if row < HEIGHT - 1 {
          text := text + [NEWLINE];
        }
        row := row + 1;
      }
    }
  }

  /** 'A', tab, 'B' from the home position puts 'B' in column 8 of the rendered text. */
  method TabScenario() returns (text: seq<bv8>)
    ensures |text| == HEIGHT * (WIDTH + 1) - 1
    ensures text[0] == 0x41 && text[8] == 0x42
    ensures forall i :: 1 <= i < 8 ==> text[i] == SPACE
  {
    var screen := new TextScreen();
    ghost var s0 := screen.State();
    screen.ProcessCharacter(0x41);
    PrintableStoresAndAdvances(s0, 0x41, true);
    ghost var s1 := screen.State();
    assert s1.col == 1 && s1.row == 0 && s1.cells[0] == 0x41;
    screen.ProcessCharacter(TAB);
    TabToNextStop(s1, true);
    ghost var s2 := screen.State();
    assert s2.col == 8 && s2.row == 0;
    screen.ProcessCharacter(0x42);
    PrintableStoresAndAdvances(s2, 0x42, true);
    ghost var cells := screen.videoBuffer;
    assert cells[0] == 0x41 && cells[8] == 0x42;
    assert forall i :: 1 <= i < 8 ==> cells[i] == SPACE;
    text := screen.GetBuffer();
    forall i | 0 <= i < 9
      ensures text[i] == Visible(cells[i])
    {
      RenderedLayout(cells, HEIGHT, 0, i);
    }
  }
}
