/*
 * The 6551 ACIA of src/devices/acia_device.cpp: a receive FIFO read through
 * the data register, a transmit buffer appended by data writes, and a status
 * register whose RX_DATA_READY bit follows the receive FIFO. Transmission is
 * instantaneous, so TX_DATA_EMPTY stays set.
 */
module AciaDevice {
  import opened Bits
  import Alu

  const ACIA_DATA: Word := 0x5000
  const ACIA_STATUS: Word := 0x5001
  const ACIA_CMD: Word := 0x5002
  const ACIA_CTRL: Word := 0x5003

  const STATUS_RX_DATA_READY: bv8 := 0x08
  const STATUS_TX_DATA_EMPTY: bv8 := 0x10
  const STATUS_DSR: bv8 := 0x40

  /** The status after `updateStatus`: RX_DATA_READY tracks `pending`, TX_DATA_EMPTY is set, other bits are kept. */
  function UpdatedStatus(status: bv8, pending: bool): (r: bv8)
    ensures BitOf(r, 3) <==> pending
    ensures BitOf(r, 4)
    ensures forall k :: 0 <= k < 8 && k != 3 && k != 4 ==> (BitOf(r, k) <==> BitOf(status, k))
  {
    var s := if pending then status | STATUS_RX_DATA_READY else status & !STATUS_RX_DATA_READY;
    Alu.MaskedBits(status, 3);
    Alu.MaskedBits(s, 4);
    forall k | 0 <= k < 8 && k != 3 && k != 4
      ensures BitOf(s | STATUS_TX_DATA_EMPTY, k) <==> BitOf(status, k)
    {
      Alu.OtherBitKept(status, 3, k);
      Alu.OtherBitKept(s, 4, k);
    }
    s | STATUS_TX_DATA_EMPTY
  }

  class ACIADevice {
    var status: bv8
    var command: bv8
    var control: bv8
    var rx: seq<bv8>
    var tx: seq<bv8>

    /** RX_DATA_READY is set exactly when received bytes are waiting, and TX_DATA_EMPTY is always set. */
    predicate Valid()
      reads this
    {
      (BitOf(status, 3) <==> rx != []) && BitOf(status, 4)
    }

    constructor()
      ensures status == STATUS_TX_DATA_EMPTY | STATUS_DSR && command == 0 && control == 0
      ensures rx == [] && tx == []
      ensures Valid()
    {
      status := STATUS_TX_DATA_EMPTY | STATUS_DSR;
      command := 0;
      control := 0;
      rx := [];
      tx := [];
    }

    /** Reads claim the four-register window except the write-only command and control registers. */
    predicate HandlesRead(address: Word)
      ensures HandlesRead(address) <==> ACIA_DATA <= address <= ACIA_CTRL && address != ACIA_CMD && address != ACIA_CTRL
    {
      address == ACIA_DATA || address == ACIA_STATUS
    }

    /** Writes claim the four-register window except the read-only status register. */
    predicate HandlesWrite(address: Word)
      ensures HandlesWrite(address) <==> ACIA_DATA <= address <= ACIA_CTRL && address != ACIA_STATUS
    {
      address == ACIA_DATA || address == ACIA_CMD || address == ACIA_CTRL
    }

    /** The byte a read of `address` returns: the oldest received byte (0 if none), the status, or 0. */
    function ReadValue(address: Word): (v: bv8)
      reads this
      ensures address == ACIA_DATA && rx != [] ==> v == rx[0]
      ensures address == ACIA_STATUS ==> v == status
      ensures !HandlesRead(address) || (address == ACIA_DATA && rx == []) ==> v == 0
    {
      if address == ACIA_DATA then (if rx != [] then rx[0] else 0x00)
      else if address == ACIA_STATUS then status
      else 0x00
    }

    method UpdateStatus()
      modifies this
      ensures status == UpdatedStatus(old(status), rx != [])
      ensures command == old(command) && control == old(control) && rx == old(rx) && tx == old(tx)
      ensures Valid()
    {
      if rx != [] {
        status := status | STATUS_RX_DATA_READY;
      } else {
        status := status & !STATUS_RX_DATA_READY;
      }
      status := status | STATUS_TX_DATA_EMPTY;
    }

    /** A data read dequeues the oldest received byte and refreshes the status; an empty FIFO reads 0 and changes nothing. */
    method Read(address: Word) returns (value: bv8)
      modifies this
      ensures value == old(ReadValue(address))
      ensures command == old(command) && control == old(control) && tx == old(tx)
      ensures address == ACIA_DATA && old(rx) != [] ==> rx == old(rx)[1..] && status == UpdatedStatus(old(status), rx != [])
      ensures !(address == ACIA_DATA && old(rx) != []) ==> rx == old(rx) && status == old(status)
      ensures old(Valid()) ==> Valid()
    {
      if address == ACIA_DATA {
        if rx != [] {
          value := rx[0];
          rx := rx[1..];
          UpdateStatus();
          return;
        }
        return 0x00;
      } else if address == ACIA_STATUS {
        return status;
      }
      return 0x00;
    }

    /**
     * A data write transmits the byte; a command write stores it; a control
     * write stores it and, when its low two bits are 00, performs a soft reset.
     */
    method Write(address: Word, value: bv8)
      modifies this
      ensures address == ACIA_DATA ==> tx == old(tx) + [value] && rx == old(rx) && status == old(status)
      ensures command == (if address == ACIA_CMD then value else old(command))
      ensures control == (if address == ACIA_CTRL then value else old(control))
      ensures address == ACIA_CTRL && value & 0x03 == 0 ==> rx == [] && tx == [] && status == STATUS_TX_DATA_EMPTY | STATUS_DSR
      ensures address == ACIA_CTRL && value & 0x03 != 0 ==> rx == old(rx) && tx == old(tx) && status == old(status)
      ensures !HandlesWrite(address) || address == ACIA_CMD ==> rx == old(rx) && tx == old(tx) && status == old(status)
      ensures old(Valid()) ==> Valid()
    {
      if address == ACIA_DATA {
        tx := tx + [value];
      } else if address == ACIA_CMD {
        command := value;
      } else if address == ACIA_CTRL {
        control := value;
        if value & 0x03 == 0x00 {
          rx := [];
          tx := [];
          status := STATUS_TX_DATA_EMPTY | STATUS_DSR;
        }
      }
    }

    /** Queues one received byte and refreshes the status. */
    method PushInput(c: bv8)
      modifies this
      ensures rx == old(rx) + [c] && tx == old(tx)
      ensures status == UpdatedStatus(old(status), true)
      ensures command == old(command) && control == old(control)
      ensures Valid()
    {
      rx := rx + [c];
      UpdateStatus();
    }

    /** Queues every byte of `text` in order, then refreshes the status once. */
    method PushInputString(text: seq<bv8>)
      modifies this
      ensures rx == old(rx) + text && tx == old(tx)
      ensures status == UpdatedStatus(old(status), rx != [])
      ensures command == old(command) && control == old(control)
      ensures Valid()
    {
      var i := 0;
      while i < |text|
        invariant 0 <= i <= |text|
        invariant rx == old(rx) + text[..i]
        invariant status == old(status) && tx == old(tx)
        invariant command == old(command) && control == old(control)
      {
        rx := rx + [text[i]];
        assert text[..i + 1] == text[..i] + [text[i]];
        i := i + 1;
      }
      assert text[..i] == text;
      UpdateStatus();
    }

    method ClearOutput()
      modifies this
      ensures tx == [] && rx == old(rx) && status == old(status)
      ensures command == old(command) && control == old(control)
    {
      tx := [];
    }
  }

  /**
   * Received bytes come out of the data register in order while the status
   * shows RX_DATA_READY; once the FIFO is drained the bit drops and DATA reads 0.
   */
  method ReceiveScenario(a: bv8, b: bv8) returns (busy: bv8, first: bv8, second: bv8, idle: bv8, empty: bv8)
    ensures busy == 0x58 && idle == 0x50
    ensures first == a && second == b && empty == 0
  {
    var acia := new ACIADevice();
    acia.PushInputString([a, b]);
    busy := acia.Read(ACIA_STATUS);
    first := acia.Read(ACIA_DATA);
    second := acia.Read(ACIA_DATA);
    idle := acia.Read(ACIA_STATUS);
    empty := acia.Read(ACIA_DATA);
  }

  /** A soft reset discards pending input and transmitted output. */
  method ResetScenario(c: bv8) returns (status: bv8, output: seq<bv8>, data: bv8)
    ensures status == 0x50 && output == [] && data == 0
  {
    var acia := new ACIADevice();
    acia.PushInput(c);
    acia.Write(ACIA_DATA, c);
    acia.Write(ACIA_CTRL, 0x1C);
    status := acia.Read(ACIA_STATUS);
    output := acia.tx;
    data := acia.Read(ACIA_DATA);
  }
}
