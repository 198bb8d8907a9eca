/*
 * The 6821 PIA of src/devices/pia.cpp as the Apple I uses it: a keyboard
 * register at 0xD010 fed from a FIFO, its control register at 0xD011, the
 * display register at 0xD012 and its control register at 0xD013.
 */
module PiaDevice {
  import opened Bits

  const KBD: Word := 0xD010
  const KBDCR: Word := 0xD011
  const DSP: Word := 0xD012
  const DSPCR: Word := 0xD013

  class PIA {
    var kbdcr: bv8
    var dspcr: bv8
    var keyReady: bool
    var displayReady: bool
    var keyboard: seq<bv8>
    var display: seq<bv8>

    /** The key-ready flag reports exactly whether a key is waiting. */
    predicate Valid()
      reads this
    {
      keyReady <==> keyboard != []
    }

    constructor()
      ensures kbdcr == 0 && dspcr == 0 && !keyReady && displayReady
      ensures keyboard == [] && display == []
      ensures Valid()
    {
      kbdcr := 0;
      dspcr := 0;
      keyReady := false;
      displayReady := true;
      keyboard := [];
      display := [];
    }

    /** The four registers of the 4-byte block at 0xD010, each readable. */
    predicate HandlesRead(address: Word)
      ensures HandlesRead(address) <==> address / 4 == KBD / 4
    {
      KBD <= address <= DSPCR
    }

    /** The same four registers, each writable. */
    predicate HandlesWrite(address: Word)
      ensures HandlesWrite(address) <==> address / 4 == KBD / 4
    {
      KBD <= address <= DSPCR
    }

    /** The byte a read of `address` returns. */
    function ReadValue(address: Word): (v: bv8)
      reads this
      ensures address == KBD ==> v == if keyboard != [] then keyboard[0] else 0
      ensures address == KBDCR ==> v & 0x7F == kbdcr & 0x7F && (v & 0x80 != 0 <==> keyReady || kbdcr & 0x80 != 0)
      ensures address == DSP ==> v == 0x80
      ensures address == DSPCR ==> v == dspcr
      ensures !HandlesRead(address) ==> v == 0
    {
      if address == KBD then (if keyboard != [] then keyboard[0] else 0)
      else if address == KBDCR then kbdcr | (if keyReady then 0x80 else 0x00)
      else if address == DSP then 0x80
      else if address == DSPCR then dspcr
      else 0
    }

    /**
     * Reading KBD dequeues the oldest key and recomputes the key-ready flag;
     * every other read leaves the device as it was.
     */
    method Read(address: Word) returns (value: bv8)
      modifies this
      ensures value == old(ReadValue(address))
      ensures kbdcr == old(kbdcr) && dspcr == old(dspcr) && display == old(display)
      ensures displayReady == old(displayReady)
      ensures address == KBD ==> keyboard == (if old(keyboard) == [] then [] else old(keyboard)[1..])
      ensures address == KBD ==> Valid()
      ensures address != KBD ==> keyboard == old(keyboard) && keyReady == old(keyReady)
      ensures old(Valid()) ==> Valid()
    {
      if address == KBD {
        if keyboard != [] {
          value := keyboard[0];
          keyboard := keyboard[1..];
          keyReady := keyboard != [];
          return;
        }
        keyReady := false;
        return 0;
      } else if address == KBDCR {
        return kbdcr | (if keyReady then 0x80 else 0x00);
      } else if address == DSP {
        return 0x80;
      } else if address == DSPCR {
        return dspcr;
      }
      return 0;
    }

    /**
     * KBD ignores writes; the control registers store the byte; DSP appends
     * the 7-bit character only when bit 7 of the written byte is clear.
     */
    method Write(address: Word, value: bv8)
      modifies this
      ensures keyboard == old(keyboard) && keyReady == old(keyReady) && displayReady == old(displayReady)
      ensures kbdcr == (if address == KBDCR then value else old(kbdcr))
      ensures dspcr == (if address == DSPCR then value else old(dspcr))
      ensures display == old(display) + (if address == DSP && value & 0x80 == 0 then [value & 0x7F] else [])
    {
      if address == KBDCR {
        kbdcr := value;
      } else if address == DSP {
        if value & 0x80 == 0 {
          display := display + [value & 0x7F];
        }
      } else if address == DSPCR {
        dspcr := value;
      }
    }

    /** A key press is queued with its high bit set and raises the key-ready flag. */
    method PushKeyboardCharacter(c: bv8)
      modifies this
      ensures keyboard == old(keyboard) + [c | 0x80] && keyReady
      ensures kbdcr == old(kbdcr) && dspcr == old(dspcr) && display == old(display)
      ensures displayReady == old(displayReady)
      ensures Valid()
    {
      keyboard := keyboard + [c | 0x80];
      keyReady := true;
    }

    method ClearDisplayOutput()
      modifies this
      ensures display == []
      ensures keyboard == old(keyboard) && keyReady == old(keyReady) && displayReady == old(displayReady)
      ensures kbdcr == old(kbdcr) && dspcr == old(dspcr)
    {
      display := [];
    }

    method HasKeyboardInput() returns (r: bool)
      ensures r <==> keyboard != []
      ensures Valid() ==> (r <==> keyReady)
    {
      r := keyboard != [];
    }
  }

  /**
   * Two keys typed are read back in order with bit 7 set, the control
   * register shows bit 7 while a key is waiting, and an empty queue reads 0.
   */
  method KeyboardScenario(a: bv8, b: bv8) returns (ready: bv8, first: bv8, second: bv8, idle: bv8, empty: bv8)
    ensures ready == 0x80 && idle == 0x00
    ensures first == a | 0x80 && second == b | 0x80 && empty == 0
  {
    var pia := new PIA();
    pia.PushKeyboardCharacter(a);
    pia.PushKeyboardCharacter(b);
    ready := pia.Read(KBDCR);
    first := pia.Read(KBD);
    second := pia.Read(KBD);
    idle := pia.Read(KBDCR);
    empty := pia.Read(KBD);
  }

  /** Display writes with bit 7 set are dropped; the others are kept as 7-bit characters. */
  method DisplayScenario() returns (shown: seq<bv8>)
    ensures shown == [0x48, 0x0D]
  {
    var pia := new PIA();
    pia.Write(DSP, 0x48);
    pia.Write(DSP, 0xC1);
    pia.Write(DSP, 0x0D);
    pia.Write(KBD, 0x41);
    shown := pia.display;
  }
}
