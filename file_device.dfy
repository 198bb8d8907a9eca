/*
 * The host-file storage device of src/devices/file_device.cpp: a small register
 * file at 0xFE00-0xFE05 and a 64-byte file-name buffer at 0xFE10-0xFE4F. Writing
 * a nonzero operation code to the control register loads a host file into memory
 * (1) or saves a block of memory to a host file (2). The host file system is the
 * map `files` from file name to contents: a save replaces one entry, a load reads
 * one, and a name without an entry is a file that cannot be opened.
 */
module Files {
  import opened Bits
  import opened Memory

  const CONTROL_ADDR: Word := 0xFE00
  const START_ADDR_LO: Word := 0xFE01
  const START_ADDR_HI: Word := 0xFE02
  const LENGTH_LO: Word := 0xFE03
  const LENGTH_HI: Word := 0xFE04
  const STATUS_ADDR: Word := 0xFE05
  const FILENAME_START: Word := 0xFE10
  const FILENAME_END: Word := 0xFE4F
  const FILENAME_SIZE: nat := 64

  const OP_NONE: bv8 := 0
  const OP_LOAD: bv8 := 1
  const OP_SAVE: bv8 := 2

  const STATUS_OK: bv8 := 0
  const STATUS_ERROR: bv8 := 1

  /** Everything above the last 16-bit address: the size of the address space. */
  const ADDRESS_SPACE: nat := 0x10000

  type FileName = seq<bv8>
  type HostFiles = map<FileName, seq<bv8>>

  // ---------------------------------------------------------------
  // The file name held in the buffer
  // ---------------------------------------------------------------

  /** The bytes of `buffer` before its first zero byte, or all of it when it has none. */
  function NameOf(buffer: seq<bv8>): (name: FileName)
    ensures name <= buffer
    ensures forall i :: 0 <= i < |name| ==> name[i] != 0
    ensures |name| < |buffer| ==> buffer[|name|] == 0
  {
    if buffer == [] || buffer[0] == 0 then [] else [buffer[0]] + NameOf(buffer[1..])
  }

  /** The three properties of `NameOf` determine the name: it is the only such prefix. */
  lemma {:induction false} NameIsUnique(buffer: seq<bv8>, name: FileName)
    requires name <= buffer
    requires forall i :: 0 <= i < |name| ==> name[i] != 0
    requires |name| < |buffer| ==> buffer[|name|] == 0
    ensures name == NameOf(buffer)
  {
    if buffer == [] || buffer[0] == 0 {
    } else {
      assert |name| > 0;
      assert name[1..] <= buffer[1..];
      assert forall i :: 0 <= i < |name[1..]| ==> name[1..][i] == name[i + 1];
      NameIsUnique(buffer[1..], name[1..]);
      assert name == [buffer[0]] + name[1..];
    }
  }

  // ---------------------------------------------------------------
  // Range checks and the effect of a transfer
  // ---------------------------------------------------------------

  /** The load range check: `startAddr + fileSize > 0x10000` rejects the file. */
  predicate LoadFits(start: Word, size: nat)
  {
    !(start + size > ADDRESS_SPACE)
  }

  /**
   * The save range check, written to avoid overflow in the 16-bit source:
   * `len > 0x10000 || startAddr > 0x10000 - len` rejects the block.
   */
  predicate SaveFits(start: Word, len: Word)
  {
    !(len > ADDRESS_SPACE || start > ADDRESS_SPACE - len)
  }

  /** The overflow-safe save check accepts exactly the blocks that end inside the address space. */
  lemma SaveFitsMeansBlockInside(start: Word, len: Word)
    ensures SaveFits(start, len) <==> start + len <= ADDRESS_SPACE
  {
  }

  /** `memory` with `data` copied to the consecutive addresses from `start` on. */
  function Loaded(memory: seq<bv8>, start: Word, data: seq<bv8>): (r: seq<bv8>)
    requires |memory| == MEM_SIZE && start + |data| <= MEM_SIZE
    ensures |r| == MEM_SIZE
    ensures r[start..start + |data|] == data
    ensures forall a :: 0 <= a < MEM_SIZE && !(start <= a < start + |data|) ==> r[a] == memory[a]
  {
    seq(MEM_SIZE, a requires 0 <= a < MEM_SIZE => if start <= a < start + |data| then data[a - start] else memory[a])
  }

  /** Saving a block and loading the saved file back at the same address leaves memory as it was. */
  lemma SaveThenLoadKeepsMemory(memory: seq<bv8>, start: Word, len: Word)
    requires |memory| == MEM_SIZE && SaveFits(start, len)
    ensures Loaded(memory, start, memory[start..start + len]) == memory
  {
    var r := Loaded(memory, start, memory[start..start + len]);
    forall a | 0 <= a < MEM_SIZE
      ensures r[a] == memory[a]
    {
      if start <= a < start + len {
        assert r[a] == r[start..start + len][a - start];
      }
    }
  }

  /** Loading a file and saving the same block again gives back the file's contents. */
  lemma LoadThenSaveKeepsFile(memory: seq<bv8>, start: Word, data: seq<bv8>)
    requires |memory| == MEM_SIZE && LoadFits(start, |data|)
    ensures |data| < ADDRESS_SPACE ==> SaveFits(start, |data|)
    ensures Loaded(memory, start, data)[start..start + |data|] == data
  {
  }

  // ---------------------------------------------------------------
  // The outcome of an operation, as a function of the device state
  // ---------------------------------------------------------------

  /**
   * The status `executeOperation` leaves: an empty name or an unknown code is an
   * error; a load or a save reports whether its transfer happened.
   */
  function OperationStatus(op: bv8, name: FileName, start: Word, len: Word, hasMemory: bool, files: HostFiles): (s: bv8)
    ensures s == STATUS_OK || s == STATUS_ERROR
  {
    if name == [] then STATUS_ERROR
    else if op == OP_LOAD then
      (if hasMemory && name in files && LoadFits(start, |files[name]|) then STATUS_OK else STATUS_ERROR)
    else if op == OP_SAVE then
      (if hasMemory && SaveFits(start, len) then STATUS_OK else STATUS_ERROR)
    else STATUS_ERROR
  }

  /** An operation succeeds exactly when the name is set, memory is attached and the transfer fits. */
  lemma OperationSucceeds(op: bv8, name: FileName, start: Word, len: Word, hasMemory: bool, files: HostFiles)
    ensures OperationStatus(op, name, start, len, hasMemory, files) == STATUS_OK <==>
      name != [] && hasMemory &&
      ((op == OP_LOAD && name in files && start + |files[name]| <= ADDRESS_SPACE) ||
       (op == OP_SAVE && start + len <= ADDRESS_SPACE))
  {
    SaveFitsMeansBlockInside(start, len);
  }

  /** Only a successful save changes the host files, and then only the entry of its name. */
  function FilesAfter(op: bv8, name: FileName, start: Word, len: Word, hasMemory: bool, files: HostFiles, memory: seq<bv8>): (r: HostFiles)
    requires hasMemory ==> |memory| == MEM_SIZE
    ensures OperationStatus(op, name, start, len, hasMemory, files) == STATUS_OK && op == OP_SAVE ==>
      r == files[name := memory[start..start + len]]
    ensures !(OperationStatus(op, name, start, len, hasMemory, files) == STATUS_OK && op == OP_SAVE) ==> r == files
  {
    if name != [] && op == OP_SAVE && hasMemory && SaveFits(start, len) then files[name := memory[start..start + len]]
    else files
  }

  /** Only a successful load changes memory, and then only the cells it copies the file to. */
  function MemoryAfter(op: bv8, name: FileName, start: Word, hasMemory: bool, files: HostFiles, memory: seq<bv8>): (r: seq<bv8>)
    requires |memory| == MEM_SIZE
    ensures OperationStatus(op, name, start, 0, hasMemory, files) == STATUS_OK && op == OP_LOAD ==>
      r == Loaded(memory, start, files[name])
    ensures !(OperationStatus(op, name, start, 0, hasMemory, files) == STATUS_OK && op == OP_LOAD) ==> r == memory
  {
    if name != [] && op == OP_LOAD && hasMemory && name in files && LoadFits(start, |files[name]|) then
      Loaded(memory, start, files[name])
    else memory
  }

  // ---------------------------------------------------------------
  // The device
  // ---------------------------------------------------------------

  class FileDevice {
    var mem: Mem?
    var controlReg: bv8
    var startAddress: Word
    var length: Word
    var status: bv8
    var filenameBuffer: seq<bv8>
    var lastFilename: FileName
    /** The host file system the device reads and writes. */
    var files: HostFiles

    ghost predicate Valid()
      reads this, mem
    {
      |filenameBuffer| == FILENAME_SIZE && (mem != null ==> mem.Valid())
    }

    /** The memory cells a load may write: none when no memory is attached. */
    function MemoryFrame(): set<object>
      reads this, mem
    {
      if mem == null then {} else {mem.Data}
    }

    /** The current memory contents, empty when no memory is attached. */
    ghost function Image(): (m: seq<bv8>)
      reads this, mem, MemoryFrame()
      ensures mem != null && mem.Valid() ==> |m| == MEM_SIZE
    {
      if mem == null then [] else mem.Data[..]
    }

    /** A device on `memory` and the host files `host`, with cleared registers and name buffer. */
    constructor(memory: Mem?, host: HostFiles)
      requires memory != null ==> memory.Valid()
      ensures Valid() && mem == memory && files == host
      ensures controlReg == 0 && startAddress == 0 && length == 0 && status == 0
      ensures filenameBuffer == seq(FILENAME_SIZE, _ => 0) && lastFilename == []
    {
      mem := memory;
      controlReg := 0;
      startAddress := 0;
      length := 0;
      status := 0;
      filenameBuffer := seq(FILENAME_SIZE, _ => 0);
      lastFilename := [];
      files := host;
    }

    /** The register file and the name buffer; both directions use the same range. */
    predicate HandlesRead(address: Word)
      ensures HandlesRead(address) <==> 0 <= address - CONTROL_ADDR < 6 || 0 <= address - FILENAME_START < FILENAME_SIZE
    {
      (CONTROL_ADDR <= address <= STATUS_ADDR) || (FILENAME_START <= address <= FILENAME_END)
    }

    predicate HandlesWrite(address: Word)
      ensures HandlesWrite(address) <==> 0 <= address - CONTROL_ADDR < 6 || 0 <= address - FILENAME_START < FILENAME_SIZE
    {
      (CONTROL_ADDR <= address <= STATUS_ADDR) || (FILENAME_START <= address <= FILENAME_END)
    }

    /** The byte a read of `address` returns: a register, a 16-bit register's byte, or a name byte. */
    function ReadValue(address: Word): (v: bv8)
      requires Valid()
      reads this, mem
      ensures address == CONTROL_ADDR ==> v == controlReg
      ensures address == STATUS_ADDR ==> v == status
      ensures address == START_ADDR_LO ==> v == Lo(startAddress)
      ensures address == START_ADDR_HI ==> v == Hi(startAddress)
      ensures address == LENGTH_LO ==> v == Lo(length)
      ensures address == LENGTH_HI ==> v == Hi(length)
      ensures FILENAME_START <= address <= FILENAME_END ==> v == filenameBuffer[address - FILENAME_START]
      ensures !HandlesRead(address) ==> v == 0
    {
      if address == CONTROL_ADDR then controlReg
      else if address == START_ADDR_LO then Lo(startAddress)
      else if address == START_ADDR_HI then Hi(startAddress)
      else if address == LENGTH_LO then Lo(length)
      else if address == LENGTH_HI then Hi(length)
      else if address == STATUS_ADDR then status
      else if FILENAME_START <= address <= FILENAME_END then filenameBuffer[address - FILENAME_START]
      else 0
    }

    /** A read has no side effect. */
    method Read(address: Word) returns (value: bv8)
      requires Valid()
      ensures value == ReadValue(address)
    {
      if address == CONTROL_ADDR {
        value := controlReg;
      } else if address == START_ADDR_LO {
        value := Lo(startAddress);
      } else if address == START_ADDR_HI {
        value := Hi(startAddress);
      } else if address == LENGTH_LO {
        value := Lo(length);
      } else if address == LENGTH_HI {
        value := Hi(length);
      } else if address == STATUS_ADDR {
        value := status;
      } else if FILENAME_START <= address <= FILENAME_END {
        value := filenameBuffer[address - FILENAME_START];
      } else {
        value := 0;
      }
    }

    /** Stores one byte of the file name. */
    method UpdateFilename(address: Word, value: bv8)
      requires Valid() && FILENAME_START <= address <= FILENAME_END
      modifies this
      ensures Valid()
      ensures filenameBuffer == old(filenameBuffer)[address - FILENAME_START := value]
      ensures mem == old(mem) && controlReg == old(controlReg) && startAddress == old(startAddress)
      ensures length == old(length) && status == old(status) && lastFilename == old(lastFilename)
      ensures files == old(files)
    {
      filenameBuffer := filenameBuffer[address - FILENAME_START := value];
    }

    /** The name in the buffer, collected byte by byte up to the first zero. */
    method GetFilenameFromBuffer() returns (name: FileName)
      requires Valid()
      ensures name == NameOf(filenameBuffer)
    {
      name := [];
      var i := 0;
      while i < |filenameBuffer| && filenameBuffer[i] != 0
        invariant 0 <= i <= |filenameBuffer|
        invariant name == filenameBuffer[..i]
        invariant forall k :: 0 <= k < i ==> filenameBuffer[k] != 0
      {
        name := name + [filenameBuffer[i]];
        i := i + 1;
      }
      NameIsUnique(filenameBuffer, name);
    }

    /**
     * Copies the host file `name` into memory from `start` on; fails without
     * touching memory when no memory is attached, the file cannot be opened or
     * it would run past the end of the address space.
     */
    method LoadBinary(name: FileName, start: Word) returns (ok: bool)
      requires Valid()
      modifies MemoryFrame()
      ensures ok <==> mem != null && name in files && LoadFits(start, |files[name]|)
      ensures mem != null && ok ==> mem.Data[..] == Loaded(old(mem.Data[..]), start, files[name])
      ensures mem != null && !ok ==> mem.Data[..] == old(mem.Data[..])
    {
      if mem == null || name !in files {
        return false;
      }
      var data := files[name];
      if start + |data| > ADDRESS_SPACE {
        return false;
      }
      var i := 0;
      while i < |data|
        invariant 0 <= i <= |data|
        invariant forall a :: 0 <= a < MEM_SIZE ==>
            mem.Data[a] == (if start <= a < start + i then data[a - start] else old(mem.Data[a]))
        modifies mem.Data
      {
        mem.Data[start + i] := data[i];
        i := i + 1;
      }
      assert mem.Data[..] == Loaded(old(mem.Data[..]), start, data);
      return true;
    }

    /**
     * Writes `len` bytes of memory from `start` on to the host file `name`; fails
     * without touching the files when no memory is attached or the block would
     * run past the end of the address space.
     */
    method SaveBinary(name: FileName, start: Word, len: Word) returns (ok: bool)
      requires Valid()
      modifies this
      ensures Valid()
      ensures ok <==> mem != null && SaveFits(start, len)
      ensures ok ==> files == old(files)[name := mem.Data[start..start + len]]
      ensures !ok ==> files == old(files)
      ensures mem == old(mem) && controlReg == old(controlReg) && startAddress == old(startAddress)
      ensures length == old(length) && status == old(status) && lastFilename == old(lastFilename)
      ensures filenameBuffer == old(filenameBuffer)
    {
      if mem == null || len > ADDRESS_SPACE || start > ADDRESS_SPACE - len {
        return false;
      }
      var buffer: seq<bv8> := [];
      var i := 0;
      while i < len
        invariant 0 <= i <= len
        invariant buffer == mem.Data[start..start + i]
      {
        buffer := buffer + [mem.Data[start + i]];
        i := i + 1;
      }
      files := files[name := buffer];
      return true;
    }

    /**
     * Runs the operation named by the control register on the name in the buffer
     * and records its outcome in the status register.
     */
    method ExecuteOperation()
      requires Valid()
      modifies this, MemoryFrame()
      ensures Valid() && mem == old(mem)
      ensures lastFilename == NameOf(old(filenameBuffer))
      ensures status == OperationStatus(old(controlReg), lastFilename, old(startAddress), old(length), mem != null, old(files))
      ensures files == FilesAfter(old(controlReg), lastFilename, old(startAddress), old(length), mem != null, old(files), old(Image()))
      ensures mem != null ==>
          mem.Data[..] == MemoryAfter(old(controlReg), lastFilename, old(startAddress), true, old(files), old(mem.Data[..]))
      ensures controlReg == old(controlReg) && startAddress == old(startAddress)
      ensures length == old(length) && filenameBuffer == old(filenameBuffer)
    {
      lastFilename := GetFilenameFromBuffer();
      if lastFilename == [] {
        status := STATUS_ERROR;
        return;
      }
      if controlReg == OP_LOAD {
        var ok := LoadBinary(lastFilename, startAddress);
        status := if ok then STATUS_OK else STATUS_ERROR;
      } else if controlReg == OP_SAVE {
        var ok := SaveBinary(lastFilename, startAddress, length);
        status := if ok then STATUS_OK else STATUS_ERROR;
      } else {
        status := STATUS_ERROR;
      }
    }

    /**
     * A write to the device. A nonzero control value runs that operation and then
     * clears the control register; a 16-bit register write replaces one of its bytes.
     */
    method Write(address: Word, value: bv8)
      requires Valid()
      modifies this, MemoryFrame()
      ensures Valid() && mem == old(mem)
      ensures address == CONTROL_ADDR ==> controlReg == 0
      ensures address == CONTROL_ADDR && value != OP_NONE ==>
          lastFilename == NameOf(filenameBuffer) &&
          status == OperationStatus(value, lastFilename, startAddress, length, mem != null, old(files)) &&
          files == FilesAfter(value, lastFilename, startAddress, length, mem != null, old(files), old(Image())) &&
          (mem != null ==>
            mem.Data[..] == MemoryAfter(value, lastFilename, startAddress, true, old(files), old(mem.Data[..])))
      ensures !(address == CONTROL_ADDR && value != OP_NONE) ==>
          files == old(files) && lastFilename == old(lastFilename) && (mem != null ==> mem.Data[..] == old(mem.Data[..]))
      ensures address != CONTROL_ADDR ==> controlReg == old(controlReg)
      ensures startAddress == (if address == START_ADDR_LO then MakeWord(value, Hi(old(startAddress)))
                               else if address == START_ADDR_HI then MakeWord(Lo(old(startAddress)), value)
                               else old(startAddress))
      ensures length == (if address == LENGTH_LO then MakeWord(value, Hi(old(length)))
                         else if address == LENGTH_HI then MakeWord(Lo(old(length)), value)
                         else old(length))
      ensures address == STATUS_ADDR ==> status == value
      ensures address != STATUS_ADDR && !(address == CONTROL_ADDR && value != OP_NONE) ==> status == old(status)
      ensures filenameBuffer == (if FILENAME_START <= address <= FILENAME_END
                                 then old(filenameBuffer)[address - FILENAME_START := value]
                                 else old(filenameBuffer))
    {
      if address == CONTROL_ADDR {
        controlReg := value;
        if controlReg != OP_NONE {
          ExecuteOperation();
          controlReg := OP_NONE;
        }
      } else if address == START_ADDR_LO {
        startAddress := MakeWord(value, Hi(startAddress));
      } else if address == START_ADDR_HI {
        startAddress := MakeWord(Lo(startAddress), value);
      } else if address == LENGTH_LO {
        length := MakeWord(value, Hi(length));
      } else if address == LENGTH_HI {
        length := MakeWord(Lo(length), value);
      } else if address == STATUS_ADDR {
        status := value;
      } else if FILENAME_START <= address <= FILENAME_END {
        UpdateFilename(address, value);
      }
    }
  }

  /**
   * Writing one byte of a 16-bit register reads back as that byte and keeps the
   * other byte: a register is rebuilt exactly from its two byte writes.
   */
  lemma RegisterBytesRoundTrip(w: Word, lo: bv8, hi: bv8)
    ensures Lo(MakeWord(lo, Hi(w))) == lo && Hi(MakeWord(lo, Hi(w))) == Hi(w)
    ensures Hi(MakeWord(Lo(w), hi)) == hi && Lo(MakeWord(Lo(w), hi)) == Lo(w)
    ensures MakeWord(Lo(MakeWord(lo, Hi(w))), hi) == MakeWord(lo, hi)
  {
  }

  // ---------------------------------------------------------------
  // Register-driven operations from the device's test suite
  // ---------------------------------------------------------------

  /** Name "A", start high byte 0x80, control 1: the five file bytes land at 0x8000 and status reads 0. */
  method LoadScenario() returns (status: bv8, control: bv8, loaded: seq<bv8>)
    ensures status == STATUS_OK && control == OP_NONE
    ensures loaded == [0x01, 0x02, 0x03, 0x04, 0x05]
  {
    var m := new Mem();
    var dev := new FileDevice(m, map[[0x41] := [0x01, 0x02, 0x03, 0x04, 0x05]]);
    dev.Write(FILENAME_START, 0x41);
    NameIsUnique(dev.filenameBuffer, [0x41]);
    dev.Write(START_ADDR_HI, 0x80);
    assert dev.startAddress == 0x8000;
    dev.Write(CONTROL_ADDR, OP_LOAD);
    status := dev.Read(STATUS_ADDR);
    control := dev.Read(CONTROL_ADDR);
    loaded := m.Data[0x8000..0x8005];
  }

  /** A fresh memory holding `data` from `start` on, as a test writes it through the bus. */
  method MemoryWithBlock(start: Word, data: seq<bv8>) returns (m: Mem)
    requires start + |data| <= MEM_SIZE
    ensures fresh(m) && fresh(m.Data) && m.Valid()
    ensures m.Data[start..start + |data|] == data
  {
    m := new Mem();
    var i := 0;
    while i < |data|
      invariant 0 <= i <= |data|
      invariant fresh(m) && fresh(m.Data) && m.Valid()
      invariant forall k :: 0 <= k < i ==> m.Data[start + k] == data[k]
    {
      m.Data[start + i] := data[i];
      i := i + 1;
    }
    assert m.Data[start..start + |data|] == data;
  }

  /** Four bytes at 0x8500, start high byte 0x85, length low byte 4, control 2: the host file holds exactly those bytes. */
  method SaveScenario() returns (status: bv8, saved: seq<bv8>)
    ensures status == STATUS_OK
    ensures saved == [0xAA, 0xBB, 0xCC, 0xDD]
  {
    var m := MemoryWithBlock(0x8500, [0xAA, 0xBB, 0xCC, 0xDD]);
    ghost var block := m.Data[0x8500..0x8504];
    var dev := new FileDevice(m, map[]);
    dev.Write(FILENAME_START, 0x42);
    NameIsUnique(dev.filenameBuffer, [0x42]);
    dev.Write(START_ADDR_HI, 0x85);
    dev.Write(LENGTH_LO, 0x04);
    assert dev.startAddress == 0x8500 && dev.length == 4;
    assert m.Data[0x8500..0x8504] == block;
    dev.Write(CONTROL_ADDR, OP_SAVE);
    status := dev.Read(STATUS_ADDR);
    saved := dev.files[[0x42]];
  }

  /** A load with no name written fails, even though the file exists. */
  method EmptyNameScenario() returns (status: bv8)
    ensures status == STATUS_ERROR
  {
    var m := new Mem();
    var dev := new FileDevice(m, map[[] := [0x00]]);
    dev.Write(CONTROL_ADDR, OP_LOAD);
    status := dev.Read(STATUS_ADDR);
  }

  /** Control value 99 names no operation: status reads 1 and the files are untouched. */
  method UnknownOperationScenario() returns (status: bv8, files: HostFiles)
    ensures status == STATUS_ERROR && files == map[[0x41] := [0x01]]
  {
    var m := new Mem();
    var dev := new FileDevice(m, map[[0x41] := [0x01]]);
    dev.Write(FILENAME_START, 0x41);
    dev.Write(CONTROL_ADDR, 99);
    status := dev.Read(STATUS_ADDR);
    files := dev.files;
  }
}
