/*
 * The Commodore-64-style console of src/devices/c64_io.cpp, which the bus
 * consults after the external devices: a keyboard FIFO read at 0xDC00 (and
 * at the WOZMON input 0xFD0C), 1 KB of screen RAM at 0x0400-0x07FF whose
 * writes are echoed to a text buffer, and the WOZMON output port 0xFDED.
 */
module C64Io {
  import opened Bits

  const SCREEN_START: Word := 0x0400
  const SCREEN_END: Word := 0x07FF
  const KEYBOARD_MATRIX: Word := 0xDC00
  const WOZMON_KBD_IN: Word := 0xFD0C
  const WOZMON_CHAR_OUT: Word := 0xFDED

  /** The sentinel with bit 7 set that tells a polling CHRIN loop that no key is ready. */
  const NO_KEY: bv8 := 0x80

  /** The character echoed for a screen-RAM write: printable ASCII as is, anything else as '?'. */
  function Echo(value: bv8): (c: bv8)
    ensures 32 <= c as int < 128
    ensures 32 <= value as int < 128 ==> c == value
  {
    if 32 <= value as int < 128 then value else 0x3F
  }

  class C64IO {
    var keyboard: seq<bv8>
    var screen: seq<bv8>
    var screenRAM: seq<bv8>

    predicate Valid()
      reads this
    {
      |screenRAM| == 1024
    }

    /** Screen RAM starts as 1024 PETSCII spaces. */
    constructor()
      ensures keyboard == [] && screen == []
      ensures screenRAM == seq(1024, _ => 32)
      ensures Valid()
    {
      keyboard := [];
      screen := [];
      screenRAM := seq(1024, _ => 32);
    }

    /** The two keyboard-matrix bytes and the monitor's input port; screen RAM is not readable here. */
    predicate HandlesRead(address: Word)
      ensures HandlesRead(address) <==> address / 2 == KEYBOARD_MATRIX / 2 || address == WOZMON_KBD_IN
      ensures HandlesRead(address) ==> !(SCREEN_START <= address <= SCREEN_END)
    {
      address == KEYBOARD_MATRIX || address == KEYBOARD_MATRIX + 1 || address == WOZMON_KBD_IN
    }

    /** The 1024 bytes of screen RAM and the monitor's output port; the keyboard is not writable. */
    predicate HandlesWrite(address: Word)
      ensures HandlesWrite(address) <==> 0 <= address - SCREEN_START < 1024 || address == WOZMON_CHAR_OUT
      ensures HandlesWrite(address) ==> address != KEYBOARD_MATRIX && address != WOZMON_KBD_IN
    {
      (SCREEN_START <= address <= SCREEN_END) || address == WOZMON_CHAR_OUT
    }

    /** The byte a read of `address` returns. */
    function ReadValue(address: Word): (v: bv8)
      reads this
      ensures (address == KEYBOARD_MATRIX || address == WOZMON_KBD_IN) && keyboard != [] ==>
        v & 0x80 == 0 && v == keyboard[0] & 0x7F
      ensures (address == KEYBOARD_MATRIX || address == WOZMON_KBD_IN) && keyboard == [] ==> v == NO_KEY && v & 0x80 != 0
      ensures address != KEYBOARD_MATRIX && address != WOZMON_KBD_IN ==> v == 0xFF
    {
      if address == KEYBOARD_MATRIX || address == WOZMON_KBD_IN then
        (if keyboard != [] then keyboard[0] & 0x7F else NO_KEY)
      else 0xFF
    }

    /**
     * A keyboard read dequeues the oldest key with bit 7 cleared, or yields
     * the sentinel 0x80 when none is waiting; other reads (0xDC01 included)
     * yield 0xFF and consume nothing.
     */
    method Read(address: Word) returns (value: bv8)
      modifies this
      ensures value == old(ReadValue(address))
      ensures screen == old(screen) && screenRAM == old(screenRAM)
      ensures (address == KEYBOARD_MATRIX || address == WOZMON_KBD_IN) && old(keyboard) != [] ==>
                keyboard == old(keyboard)[1..] && !Negative(value)
      ensures !((address == KEYBOARD_MATRIX || address == WOZMON_KBD_IN) && old(keyboard) != []) ==>
                keyboard == old(keyboard)
      ensures (address == KEYBOARD_MATRIX || address == WOZMON_KBD_IN) ==> (Negative(value) <==> old(keyboard) == [])
    {
      if address == KEYBOARD_MATRIX || address == WOZMON_KBD_IN {
        if keyboard != [] {
          var c := keyboard[0];
          keyboard := keyboard[1..];
          return c & 0x7F;
        }
        return NO_KEY;
      }
      return 0xFF;
    }

    /** A screen-RAM write stores the byte and echoes it; a WOZMON output write echoes the raw byte. */
    method Write(address: Word, value: bv8)
      requires Valid()
      modifies this
      ensures Valid() && keyboard == old(keyboard)
      ensures SCREEN_START <= address <= SCREEN_END ==>
                screenRAM == old(screenRAM)[address - SCREEN_START := value] && screen == old(screen) + [Echo(value)]
      ensures address == WOZMON_CHAR_OUT ==> screenRAM == old(screenRAM) && screen == old(screen) + [value]
      ensures !HandlesWrite(address) ==> screenRAM == old(screenRAM) && screen == old(screen)
    {
      if SCREEN_START <= address <= SCREEN_END {
        var pos := address - SCREEN_START;
        screenRAM := screenRAM[pos := value];
        screen := screen + [Echo(value)];
      } else if address == WOZMON_CHAR_OUT {
        screen := screen + [value];
      }
    }

    method PushInput(c: bv8)
      modifies this
      ensures keyboard == old(keyboard) + [c]
      ensures screen == old(screen) && screenRAM == old(screenRAM)
    {
      keyboard := keyboard + [c];
    }
  }

  /** Keys are read in order with bit 7 cleared; an empty queue gives the 0x80 sentinel; 0xDC01 reads 0xFF. */
  method KeyboardScenario() returns (first: bv8, matrix: bv8, second: bv8, none: bv8)
    ensures first == 0x41 && matrix == 0xFF && second == 0x0D && none == 0x80
  {
    var io := new C64IO();
    io.PushInput(0xC1);
    io.PushInput(0x0D);
    first := io.Read(KEYBOARD_MATRIX);
    matrix := io.Read(KEYBOARD_MATRIX + 1);
    second := io.Read(WOZMON_KBD_IN);
    none := io.Read(KEYBOARD_MATRIX);
  }
}
