/*
 * The VIA port A device of src/devices/via_port_device.cpp: one output port
 * and its data-direction register. A bit of port A can only be changed by a
 * write when the matching bit of the data-direction register is 1 (output).
 */
module ViaPort {
  import opened Bits
  import Alu

  const PORTA: Word := 0x6001
  const DDRA: Word := 0x6003

  /**
   * The port after a write of `value` under direction mask `ddr`: output bits
   * take the written value, input bits keep the port's old level.
   */
  function MergePort(port: bv8, ddr: bv8, value: bv8): (r: bv8)
    ensures forall k :: 0 <= k < 8 ==> (BitOf(r, k) <==> if BitOf(ddr, k) then BitOf(value, k) else BitOf(port, k))
    ensures ddr == 0 ==> r == port
    ensures ddr == 0xFF ==> r == value
  {
    forall k | 0 <= k < 8
      ensures BitOf((port & !ddr) | (value & ddr), k) <==> if BitOf(ddr, k) then BitOf(value, k) else BitOf(port, k)
    {
      MergeBit(port, ddr, value, k);
    }
    (port & !ddr) | (value & ddr)
  }

  lemma MergeBit(port: bv8, ddr: bv8, value: bv8, k: nat)
    requires k < 8
    ensures BitOf((port & !ddr) | (value & ddr), k) <==> if BitOf(ddr, k) then BitOf(value, k) else BitOf(port, k)
  {
    Alu.OrBit(value & ddr, port & !ddr, k);
    Alu.AndNotBit(ddr, port, k);
    Alu.AndBit(value, ddr, k);
  }

  /** Writing the same value to port A twice leaves the port as one write did. */
  lemma RepeatedWriteIdempotent(port: bv8, ddr: bv8, value: bv8)
    ensures MergePort(MergePort(port, ddr, value), ddr, value) == MergePort(port, ddr, value)
  {
  }

  class ViaPortDevice {
    var portA: bv8
    var ddrA: bv8

    /** Port A idles high and every line starts as an input. */
    constructor()
      ensures portA == 0xFF && ddrA == 0x00
    {
      portA := 0xFF;
      ddrA := 0x00;
    }

    /** The two odd registers of the 4-byte block at 0x6000: port A and its direction register. */
    predicate HandlesRead(address: Word)
      ensures HandlesRead(address) <==> address / 4 == PORTA / 4 && address % 2 == 1
    {
      address == PORTA || address == DDRA
    }

    /** Writes claim the same two registers. */
    predicate HandlesWrite(address: Word)
      ensures HandlesWrite(address) <==> address / 4 == PORTA / 4 && address % 2 == 1
    {
      address == PORTA || address == DDRA
    }

    /** The byte a read of `address` returns: the port, the direction mask, or 0 for any other address. */
    function ReadValue(address: Word): (v: bv8)
      reads this
      ensures address == PORTA ==> v == portA
      ensures address == DDRA ==> v == ddrA
      ensures !HandlesRead(address) ==> v == 0
    {
      if address == PORTA then portA else if address == DDRA then ddrA else 0x00
    }

    /** Reading has no side effect. */
    method Read(address: Word) returns (value: bv8)
      ensures value == ReadValue(address)
      ensures !HandlesRead(address) ==> value == 0
    {
      if address == PORTA {
        value := portA;
      } else if address == DDRA {
        value := ddrA;
      } else {
        value := 0x00;
      }
    }

    method Write(address: Word, value: bv8)
      modifies this
      ensures address == PORTA ==> portA == MergePort(old(portA), old(ddrA), value) && ddrA == old(ddrA)
      ensures address == DDRA ==> ddrA == value && portA == old(portA)
      ensures !HandlesWrite(address) ==> portA == old(portA) && ddrA == old(ddrA)
    {
      if address == PORTA {
        portA := MergePort(portA, ddrA, value);
      } else if address == DDRA {
        ddrA := value;
      }
    }
  }

  /**
   * A fresh device ignores port writes until some lines are made outputs;
   * after DDRA := 0x0F only the low nibble of a port write lands.
   */
  method DirectionScenario() returns (before: bv8, after: bv8)
    ensures before == 0xFF
    ensures after == 0xF5
  {
    var via := new ViaPortDevice();
    via.Write(PORTA, 0x00);
    before := via.Read(PORTA);
    via.Write(DDRA, 0x0F);
    via.Write(PORTA, 0x05);
    after := via.Read(PORTA);
  }
}
