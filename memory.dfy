/*
 * The flat 64 KB memory of src/mem/mem.cpp and the memory-map constants of
 * mem.hpp. `Mem::operator[]` hands out the cell itself; here a read is the
 * function `Read` and a write is the method `Write`.
 */
module Memory {
  import opened Bits

  const MEM_SIZE: nat := 65536

  const ZERO_PAGE_START: Word := 0x0000
  const ZERO_PAGE_END: Word := 0x00FF
  const STACK_START: Word := 0x0100
  const STACK_END: Word := 0x01FF
  const RAM_START: Word := 0x0200
  const RAM_END: Word := 0x1FFF
  const ROM_START: Word := 0x8000
  const ROM_END: Word := 0xFFFF
  const RESET_VECTOR: Word := 0xFFFC
  const IRQ_VECTOR: Word := 0xFFFE
  const NMI_VECTOR: Word := 0xFFFA

  class Mem {
    var Data: array<bv8>

    /** The array always holds one byte per 16-bit address. */
    ghost predicate Valid()
      reads this
    {
      Data.Length == MEM_SIZE
    }

    /** A fresh memory; like the C++ `std::array`, its contents are unspecified until `Initialize`. */
    constructor()
      ensures Valid() && fresh(Data)
    {
      Data := new bv8[MEM_SIZE];
    }

    /** Zeroes every cell. */
    method Initialize()
      requires Valid()
      modifies Data
      ensures forall a :: 0 <= a < MEM_SIZE ==> Data[a] == 0
    {
      var i := 0;
      while i < MEM_SIZE
        invariant 0 <= i <= MEM_SIZE
        invariant forall a :: 0 <= a < i ==> Data[a] == 0
      {
        Data[i] := 0;
        i := i + 1;
      }
    }

    /** The byte at `address` (the const `operator[]`). */
    function Read(address: Word): (v: bv8)
      requires Valid()
      reads this, Data
      ensures v == Data[..][address]
    {
      Data[address]
    }

    /** Stores `value` at `address` (assignment through the mutable `operator[]`). */
    method Write(address: Word, value: bv8)
      requires Valid()
      modifies Data
      ensures Data[..] == old(Data[..])[address := value]
    {
      Data[address] := value;
    }
  }

  /**
   * Reading back after a write: the written address yields the byte written
   * and every other address keeps its old contents.
   */
  method ReadAfterWrite(m: Mem, address: Word, value: bv8, other: Word) returns (written: bv8, kept: bv8)
    requires m.Valid()
    modifies m.Data
    ensures written == value
    ensures other != address ==> kept == old(m.Read(other))
  {
    m.Write(address, value);
    written := m.Read(address);
    kept := m.Read(other);
  }
}
