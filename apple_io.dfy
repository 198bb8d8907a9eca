/*
 * The Apple-style console of src/devices/apple_io.cpp: one keyboard
 * register fed from a FIFO of typed characters and one screen register
 * whose writes are collected in a text buffer. A C++ `char` is a byte here,
 * and the screen buffer (a std::string) is the sequence of bytes written.
 */
module AppleIo {
  import opened Bits

  const KBD: Word := 0xFD0C
  const SCREEN: Word := 0xFDED

  class AppleIO {
    var keyboard: seq<bv8>
    var screen: seq<bv8>

    constructor()
      ensures keyboard == [] && screen == []
    {
      keyboard := [];
      screen := [];
    }

    /** The keyboard port is the one readable address; the display port is write-only. */
    predicate HandlesRead(address: Word)
      ensures HandlesRead(address) <==> address == KBD
      ensures address == SCREEN ==> !HandlesRead(address)
    {
      address == KBD
    }

    /** The display port is the one writable address; the keyboard port is read-only. */
    predicate HandlesWrite(address: Word)
      ensures HandlesWrite(address) <==> address == SCREEN
      ensures address == KBD ==> !HandlesWrite(address)
    {
      address == SCREEN
    }

    /** The byte a read of `address` returns: the oldest typed character, or 0. */
    function ReadValue(address: Word): (v: bv8)
      reads this
      ensures HandlesRead(address) && keyboard != [] ==> v == keyboard[0]
      ensures !HandlesRead(address) || keyboard == [] ==> v == 0
    {
      if address == KBD && keyboard != [] then keyboard[0] else 0
    }

    /** A keyboard read consumes the oldest character; any other read consumes nothing. */
    method Read(address: Word) returns (value: bv8)
      modifies this
      ensures value == old(ReadValue(address))
      ensures screen == old(screen)
      ensures address == KBD && old(keyboard) != [] ==> keyboard == old(keyboard)[1..]
      ensures address != KBD || old(keyboard) == [] ==> keyboard == old(keyboard) && value == 0
    {
      if address == KBD {
        if keyboard != [] {
          value := keyboard[0];
          keyboard := keyboard[1..];
          return;
        }
        return 0;
      }
      return 0;
    }

    /** A screen write appends the byte; a write elsewhere is ignored. */
    method Write(address: Word, value: bv8)
      modifies this
      ensures keyboard == old(keyboard)
      ensures screen == old(screen) + (if address == SCREEN then [value] else [])
    {
      if address == SCREEN {
        screen := screen + [value];
      }
    }

    /** Simulates a key press. */
    method PushInput(c: bv8)
      modifies this
      ensures keyboard == old(keyboard) + [c] && screen == old(screen)
    {
      keyboard := keyboard + [c];
    }
  }

  /** Keys come out in the order they were typed, then the register reads 0. */
  method KeyboardIsFifo(a: bv8, b: bv8) returns (first: bv8, second: bv8, third: bv8)
    ensures first == a && second == b && third == 0
  {
    var io := new AppleIO();
    io.PushInput(a);
    io.PushInput(b);
    first := io.Read(KBD);
    second := io.Read(KBD);
    third := io.Read(KBD);
  }

  /** The screen buffer is the in-order concatenation of the bytes written to the screen register. */
  method ScreenCollectsWrites(text: seq<bv8>) returns (shown: seq<bv8>)
    ensures shown == text
  {
    var io := new AppleIO();
    var i := 0;
    while i < |text|
      invariant 0 <= i <= |text|
      invariant io.screen == text[..i]
    {
      io.Write(SCREEN, text[i]);
      assert text[..i + 1] == text[..i] + [text[i]];
      i := i + 1;
    }
    assert text[..i] == text;
    shown := io.screen;
  }
}
