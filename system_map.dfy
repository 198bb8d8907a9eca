/*
 * The system bus of src/cpu/system_map.cpp. An access first goes to the first
 * registered external device that claims the address, then to the built-in
 * C64 keyboard/screen, then to 256 KB of RAM below 0x8000 and to 32 KB of ROM
 * from 0x8000 on. The decision is the pure function `RouteOf`; the methods
 * `Read` and `Write` are proved to follow it and to touch nothing else.
 */
module Bus {
  import opened Bits
  import opened Memory
  import opened TextScreens
  import opened PiaDevice
  import opened AciaDevice
  import opened ViaPort
  import opened AppleIo
  import opened Timers
  import opened Files
  import opened C64Io

  const RAM_SIZE: nat := 256 * 1024
  const ROM_SIZE: nat := 32 * 1024
  const ROM_BASE: Word := 0x8000
  const SERIAL_BASE: Word := 0x5000
  const SERIAL_END: Word := 0x5004
  const AUDIO_BASE: Word := 0x6000
  const AUDIO_END: Word := 0x6FFF

  // ---------------------------------------------------------------
  // External devices
  // ---------------------------------------------------------------

  /** A device that can be registered on the bus: one case per device class. */
  datatype Device =
    | Screen(screen: TextScreen)
    | Pia(pia: PIA)
    | Acia(acia: ACIADevice)
    | Via(via: ViaPortDevice)
    | Apple(apple: AppleIO)
    | Timer(timer: BasicTimer)
    | Storage(storage: FileDevice)

  /** Whether `d` answers an access to `address`; no device's claim depends on its state. */
  predicate Claims(d: Device, address: Word, write: bool)
  {
    match d
    case Screen(s) => if write then s.HandlesWrite(address) else s.HandlesRead(address)
    case Pia(p) => if write then p.HandlesWrite(address) else p.HandlesRead(address)
    case Acia(a) => if write then a.HandlesWrite(address) else a.HandlesRead(address)
    case Via(v) => if write then v.HandlesWrite(address) else v.HandlesRead(address)
    case Apple(a) => if write then a.HandlesWrite(address) else a.HandlesRead(address)
    case Timer(t) => if write then t.HandlesWrite(address) else t.HandlesRead(address)
    case Storage(f) => if write then f.HandlesWrite(address) else f.HandlesRead(address)
  }

  /** The object behind a device. */
  function ObjectOf(d: Device): object
  {
    match d
    case Screen(s) => s
    case Pia(p) => p
    case Acia(a) => a
    case Via(v) => v
    case Apple(a) => a
    case Timer(t) => t
    case Storage(f) => f
  }

  /** What a device's invariant reads: the device, and a file device's memory object. */
  function DeviceReads(d: Device): set<object>
    reads ObjectOf(d)
  {
    match d
    case Storage(f) => if f.mem == null then {f} else {f, f.mem}
    case _ => {ObjectOf(d)}
  }

  /** What an access to a device may change: the device, and a file device's memory cells. */
  function DeviceFrame(d: Device): set<object>
    reads DeviceReads(d)
  {
    match d
    case Storage(f) => {f} + f.MemoryFrame()
    case _ => {ObjectOf(d)}
  }

  ghost predicate DeviceValid(d: Device)
    reads DeviceReads(d)
  {
    match d
    case Screen(s) => s.Valid()
    case Pia(p) => p.Valid()
    case Acia(a) => a.Valid()
    case Storage(f) => f.Valid()
    case _ => true
  }

  /** The byte a read of `address` from `d` returns. */
  ghost function DeviceReadValue(d: Device, address: Word): bv8
    requires DeviceValid(d)
    reads DeviceReads(d)
  {
    match d
    case Screen(s) => s.ReadValue(address)
    case Pia(p) => p.ReadValue(address)
    case Acia(a) => a.ReadValue(address)
    case Via(v) => v.ReadValue(address)
    case Apple(a) => a.ReadValue(address)
    case Timer(t) => t.ReadValue(address)
    case Storage(f) => f.ReadValue(address)
  }

  /** A read through the device's own `read`. */
  method DeviceRead(d: Device, address: Word) returns (value: bv8)
    requires DeviceValid(d)
    modifies ObjectOf(d)
    ensures DeviceValid(d) && DeviceReads(d) == old(DeviceReads(d)) && DeviceFrame(d) == old(DeviceFrame(d))
    ensures value == old(DeviceReadValue(d, address))
  {
    match d
    case Screen(s) => value := s.Read(address);
    case Pia(p) => value := p.Read(address);
    case Acia(a) => value := a.Read(address);
    case Via(v) => value := v.Read(address);
    case Apple(a) => value := a.Read(address);
    case Timer(t) => value := t.Read(address);
    case Storage(f) => value := f.Read(address);
  }

  /** A write through the device's own `write`; its effect is that device's `Write` contract. */
  method DeviceWrite(d: Device, address: Word, value: bv8)
    requires DeviceValid(d)
    modifies DeviceFrame(d)
    ensures DeviceValid(d) && DeviceReads(d) == old(DeviceReads(d)) && DeviceFrame(d) == old(DeviceFrame(d))
  {
    match d
    case Screen(s) => s.Write(address, value);
    case Pia(p) => p.Write(address, value);
    case Acia(a) => a.Write(address, value);
    case Via(v) => v.Write(address, value);
    case Apple(a) => a.Write(address, value);
    case Timer(t) => t.Write(address, value);
    case Storage(f) => f.Write(address, value);
  }

  // ---------------------------------------------------------------
  // The device list
  // ---------------------------------------------------------------

  predicate NoDuplicates(devices: seq<Device>)
  {
    forall i, j :: 0 <= i < j < |devices| ==> devices[i] != devices[j]
  }

  /** The list after registering `d`: appended unless already present. */
  function WithDevice(devices: seq<Device>, d: Device): (r: seq<Device>)
    ensures d in r && |devices| <= |r|
    ensures forall i :: 0 <= i < |r| ==> r[i] in devices || r[i] == d
    ensures r[..|devices|] == devices
    ensures NoDuplicates(devices) ==> NoDuplicates(r)
  {
    if d in devices then devices else devices + [d]
  }

  /** The list after unregistering `d`: every occurrence removed, the others kept in order. */
  function WithoutDevice(devices: seq<Device>, d: Device): (r: seq<Device>)
    ensures d !in r
    ensures forall i :: 0 <= i < |r| ==> r[i] in devices
    ensures forall i :: 0 <= i < |devices| && devices[i] != d ==> devices[i] in r
    ensures |r| <= |devices|
    ensures NoDuplicates(devices) ==> NoDuplicates(r)
  {
    if devices == [] then []
    else if devices[0] == d then WithoutDevice(devices[1..], d)
    else [devices[0]] + WithoutDevice(devices[1..], d)
  }

  /** Registering a device that is already present changes nothing. */
  lemma RegisterIsIdempotent(devices: seq<Device>, d: Device)
    ensures WithDevice(WithDevice(devices, d), d) == WithDevice(devices, d)
  {
  }

  /** Unregistering undoes a registration of a device that was not present. */
  lemma {:induction false} UnregisterUndoesRegister(devices: seq<Device>, d: Device)
    requires d !in devices
    ensures WithoutDevice(WithDevice(devices, d), d) == devices
  {
    WithoutAppended(devices, d);
  }

  lemma {:induction false} WithoutAppended(devices: seq<Device>, d: Device)
    requires d !in devices
    ensures WithoutDevice(devices + [d], d) == devices
  {
    if devices == [] {
    } else {
      assert (devices + [d])[1..] == devices[1..] + [d];
      WithoutAppended(devices[1..], d);
    }
  }

  /** Removing a device that is not present leaves the list as it was. */
  lemma {:induction false} WithoutAbsent(devices: seq<Device>, d: Device)
    requires d !in devices
    ensures WithoutDevice(devices, d) == devices
  {
    if devices != [] {
      WithoutAbsent(devices[1..], d);
    }
  }

  // ---------------------------------------------------------------
  // Address decoding
  // ---------------------------------------------------------------

  /** Where an access ends up: a registered device, the C64 I/O, a RAM cell or a ROM cell. */
  datatype Route = External(index: nat) | C64 | Ram(cell: nat) | Rom(cell: nat)

  /** The index of the first device from `from` on that claims `address`. */
  function FirstClaim(devices: seq<Device>, address: Word, write: bool, from: nat): (r: Option<nat>)
    requires from <= |devices|
    decreases |devices| - from
    ensures r.Some? ==> from <= r.value < |devices| && Claims(devices[r.value], address, write)
    ensures r.Some? ==> forall j :: from <= j < r.value ==> !Claims(devices[j], address, write)
    ensures r.None? ==> forall j :: from <= j < |devices| ==> !Claims(devices[j], address, write)
  {
    if from == |devices| then None
    else if Claims(devices[from], address, write) then Some(from)
    else FirstClaim(devices, address, write, from + 1)
  }

  /** The C64 keyboard and screen claim a fixed set of addresses. */
  predicate C64Claims(address: Word, write: bool)
    ensures C64Claims(address, write) <==>
      if write then 0 <= address - C64Io.SCREEN_START < 1024 || address == C64Io.WOZMON_CHAR_OUT
      else address / 2 == C64Io.KEYBOARD_MATRIX / 2 || address == C64Io.WOZMON_KBD_IN
  {
    if write then
      (C64Io.SCREEN_START <= address <= C64Io.SCREEN_END) || address == C64Io.WOZMON_CHAR_OUT
    else
      address == C64Io.KEYBOARD_MATRIX || address == C64Io.KEYBOARD_MATRIX + 1 || address == C64Io.WOZMON_KBD_IN
  }

  /** `C64Claims` is the C64 I/O's own claim. */
  lemma C64ClaimsAgree(io: C64IO, address: Word)
    ensures C64Claims(address, false) == io.HandlesRead(address)
    ensures C64Claims(address, true) == io.HandlesWrite(address)
  {
  }

  /**
   * The decoding of `read` and `write`. The source's further branches for the
   * serial port (0x5000-0x5004), audio (0x6000-0x6FFF) and "everything else"
   * come after the RAM and ROM tests, which between them take every address.
   */
  function RouteOf(devices: seq<Device>, address: Word, write: bool): (r: Route)
    ensures r.External? ==>
      r.index < |devices| && Claims(devices[r.index], address, write)
      && forall j :: 0 <= j < r.index ==> !Claims(devices[j], address, write)
    ensures !r.External? ==> forall j :: 0 <= j < |devices| ==> !Claims(devices[j], address, write)
    ensures r.C64? ==> C64Claims(address, write)
    ensures r.Ram? ==> !C64Claims(address, write) && address < ROM_BASE && r.cell == address
    ensures r.Rom? ==> !C64Claims(address, write) && address >= ROM_BASE && r.cell == address - ROM_BASE < ROM_SIZE
  {
    match FirstClaim(devices, address, write, 0)
    case Some(k) => External(k)
    case None =>
      if C64Claims(address, write) then C64
      else if address < ROM_BASE then Ram(address % RAM_SIZE)
      else Rom(address - ROM_BASE)
  }

  /** A device handles an access exactly when it claims it and no earlier device does. */
  lemma DeviceRouting(devices: seq<Device>, address: Word, write: bool, k: nat)
    requires k < |devices|
    ensures RouteOf(devices, address, write) == External(k) <==>
      Claims(devices[k], address, write) && forall j :: 0 <= j < k ==> !Claims(devices[j], address, write)
  {
  }

  /** With no device claiming it, an address outside the C64 I/O is a RAM cell below 0x8000 and a ROM cell above. */
  lemma MemoryRouting(devices: seq<Device>, address: Word, write: bool)
    requires forall j :: 0 <= j < |devices| ==> !Claims(devices[j], address, write)
    requires !C64Claims(address, write)
    ensures address < 0x8000 ==> RouteOf(devices, address, write) == Ram(address)
    ensures address >= 0x8000 ==> RouteOf(devices, address, write) == Rom(address - 0x8000)
  {
    assert FirstClaim(devices, address, write, 0).None?;
  }

  /** The serial and audio windows are never reached: unclaimed, they are plain RAM. */
  lemma SerialAndAudioAreRam(devices: seq<Device>, address: Word, write: bool)
    requires (SERIAL_BASE <= address <= SERIAL_END) || (AUDIO_BASE <= address <= AUDIO_END)
    requires forall j :: 0 <= j < |devices| ==> !Claims(devices[j], address, write)
    ensures RouteOf(devices, address, write) == Ram(address)
  {
    MemoryRouting(devices, address, write);
  }

  /** Every route points at something that exists: a listed device, or a cell inside RAM or ROM. */
  lemma RoutesAreInRange(devices: seq<Device>, address: Word, write: bool)
    ensures RouteOf(devices, address, write).External? ==> RouteOf(devices, address, write).index < |devices|
    ensures RouteOf(devices, address, write).Ram? ==> RouteOf(devices, address, write).cell < RAM_SIZE
    ensures RouteOf(devices, address, write).Rom? ==> RouteOf(devices, address, write).cell < ROM_SIZE
  {
  }

  // ---------------------------------------------------------------
  // The bus
  // ---------------------------------------------------------------

  /**
   * A registered device lies inside the bus's footprint `repr`, is valid, and
   * is apart from the bus's own RAM and ROM (a file device's memory is not the
   * bus's RAM).
   */
  ghost predicate Separate(d: Device, ram: object, rom: object, repr: set<object>)
    reads DeviceReads(d)
  {
    DeviceValid(d) && DeviceFrame(d) <= repr &&
    ram !in DeviceFrame(d) && rom !in DeviceFrame(d)
  }

  /** The built-in C64 I/O is none of the registered devices' objects. */
  lemma C64IsNoDevice(io: C64IO, d: Device)
    ensures io !in DeviceReads(d)
  {
  }

  /** A device apart from the bus stays apart when the bus's footprint grows. */
  lemma SeparateGrows(d: Device, ram: object, rom: object, r1: set<object>, r2: set<object>)
    requires r1 <= r2 && Separate(d, ram, rom, r1)
    ensures Separate(d, ram, rom, r2)
  {
  }

  /** Distinct devices are distinct objects, and one device's object is not in another's footprint. */
  lemma DistinctDevices(a: Device, b: Device)
    requires a != b
    ensures ObjectOf(a) != ObjectOf(b)
    ensures ObjectOf(b) !in DeviceReads(a)
  {
  }

  class SystemMap {
    var ram: array<bv8>
    var rom: array<bv8>
    var c64io: C64IO
    var externalDevices: seq<Device>
    /** Every object an access may read or change. */
    ghost var Repr: set<object>

    ghost predicate Valid()
      reads this, Repr
    {
      ram in Repr && rom in Repr && c64io in Repr && this !in Repr &&
      ram.Length == RAM_SIZE && rom.Length == ROM_SIZE && ram != rom && c64io.Valid() &&
      NoDuplicates(externalDevices) &&
      (forall i :: 0 <= i < |externalDevices| ==>
         ObjectOf(externalDevices[i]) in Repr && DeviceReads(externalDevices[i]) <= Repr &&
         Separate(externalDevices[i], ram, rom, Repr))
    }

    /** A bus with zeroed RAM and ROM, a fresh C64 I/O and no external devices. */
    constructor()
      ensures Valid() && fresh(Repr)
      ensures externalDevices == []
      ensures forall i :: 0 <= i < RAM_SIZE ==> ram[i] == 0
      ensures forall i :: 0 <= i < ROM_SIZE ==> rom[i] == 0
    {
      ram := new bv8[RAM_SIZE](_ => 0);
      rom := new bv8[ROM_SIZE](_ => 0);
      c64io := new C64IO();
      externalDevices := [];
      Repr := {ram, rom, c64io};
      new;
      Repr := {ram, rom, c64io};
    }

    /** The objects an access along `route` may change. */
    ghost function Target(route: Route): set<object>
      requires Valid()
      reads this, Repr
    {
      match route
      case External(k) => if k < |externalDevices| then DeviceFrame(externalDevices[k]) else {}
      case C64 => {c64io}
      case Ram(_) => {ram}
      case Rom(_) => {rom}
    }

    /** The byte a read of `address` returns, following `RouteOf`. */
    ghost function ReadResult(address: Word): bv8
      requires Valid()
      reads this, Repr
    {
      RoutesAreInRange(externalDevices, address, false);
      match RouteOf(externalDevices, address, false)
      case External(k) => DeviceReadValue(externalDevices[k], address)
      case C64 => c64io.ReadValue(address)
      case Ram(i) => ram[i]
      case Rom(i) => rom[i]
    }

    /** The index of the first device claiming `address`, found by scanning the list in order. */
    method FindClaimant(address: Word, write: bool) returns (k: Option<nat>)
      ensures k == FirstClaim(externalDevices, address, write, 0)
    {
      var i := 0;
      while i < |externalDevices|
        invariant 0 <= i <= |externalDevices|
        invariant FirstClaim(externalDevices, address, write, 0) == FirstClaim(externalDevices, address, write, i)
      {
        if Claims(externalDevices[i], address, write) {
          return Some(i);
        }
        i := i + 1;
      }
      return None;
    }

    /** A read handled by the `k`th registered device. */
    method ExternalRead(k: nat, address: Word) returns (value: bv8)
      requires Valid() && k < |externalDevices|
      modifies ObjectOf(externalDevices[k])
      ensures Valid()
      ensures value == old(DeviceReadValue(externalDevices[k], address))
    {
      var d := externalDevices[k];
      value := DeviceRead(d, address);
      forall j | 0 <= j < |externalDevices| && j != k
        ensures ObjectOf(externalDevices[j]) in Repr && DeviceReads(externalDevices[j]) <= Repr
        ensures Separate(externalDevices[j], ram, rom, Repr)
      {
        DistinctDevices(externalDevices[j], d);
      }
    }

    /** A read handled by the built-in C64 keyboard and screen. */
    method C64Read(address: Word) returns (value: bv8)
      requires Valid()
      modifies c64io
      ensures Valid()
      ensures value == old(c64io.ReadValue(address))
    {
      value := c64io.Read(address);
      forall j | 0 <= j < |externalDevices|
        ensures ObjectOf(externalDevices[j]) in Repr && DeviceReads(externalDevices[j]) <= Repr
        ensures Separate(externalDevices[j], ram, rom, Repr)
      {
        C64IsNoDevice(c64io, externalDevices[j]);
      }
    }

    /** A read: the routed component answers, and only it may change (a keyboard queue pops). */
    method Read(address: Word) returns (value: bv8)
      requires Valid()
      modifies Repr
      ensures Valid() && Repr == old(Repr) && externalDevices == old(externalDevices)
      ensures value == old(ReadResult(address))
      ensures ram[..] == old(ram[..]) && rom[..] == old(rom[..])
      ensures forall o :: o in Repr && o !in Target(RouteOf(externalDevices, address, false)) ==> unchanged(o)
    {
      RoutesAreInRange(externalDevices, address, false);
      var k := FindClaimant(address, false);
      if k.Some? {
        value := ExternalRead(k.value, address);
      } else if c64io.HandlesRead(address) {
        value := C64Read(address);
      } else if address < ROM_BASE {
        value := ram[address % RAM_SIZE];
      } else if ROM_BASE <= address <= 0xFFFF {
        value := rom[address - ROM_BASE];
      } else if SERIAL_BASE <= address <= SERIAL_END {
        value := 0xFF;
      } else if AUDIO_BASE <= address <= AUDIO_END {
        value := 0xFF;
      } else {
        value := 0xFF;
      }
    }
  
    /** A write handled by the `k`th registered device. */
    method ExternalWrite(k: nat, address: Word, value: bv8)
      requires Valid() && k < |externalDevices|
      modifies DeviceFrame(externalDevices[k])
      ensures Valid() && DeviceFrame(externalDevices[k]) == old(DeviceFrame(externalDevices[k]))
    {
      var d := externalDevices[k];
      DeviceWrite(d, address, value);
      forall j | 0 <= j < |externalDevices| && j != k
        ensures ObjectOf(externalDevices[j]) in Repr && DeviceReads(externalDevices[j]) <= Repr
        ensures Separate(externalDevices[j], ram, rom, Repr)
      {
        DistinctDevices(externalDevices[j], d);
        FrameIsApart(d, externalDevices[j]);
      }
    }

    /** A write handled by the built-in C64 keyboard and screen. */
    method C64Write(address: Word, value: bv8)
      requires Valid()
      modifies c64io
      ensures Valid()
    {
      c64io.Write(address, value);
      forall j | 0 <= j < |externalDevices|
        ensures ObjectOf(externalDevices[j]) in Repr && DeviceReads(externalDevices[j]) <= Repr
        ensures Separate(externalDevices[j], ram, rom, Repr)
      {
        C64IsNoDevice(c64io, externalDevices[j]);
      }
    }

    /** A store into RAM or ROM; no device reads either array. */
    method StoreCell(cells: array<bv8>, i: nat, value: bv8)
      requires Valid() && (cells == ram || cells == rom) && i < cells.Length
      modifies cells
      ensures Valid()
      ensures cells[..] == old(cells[..])[i := value]
    {
      cells[i] := value;
      forall j | 0 <= j < |externalDevices|
        ensures ObjectOf(externalDevices[j]) in Repr && DeviceReads(externalDevices[j]) <= Repr
        ensures Separate(externalDevices[j], ram, rom, Repr)
      {
        ArrayIsNoDevice(cells, externalDevices[j]);
      }
    }

    /**
     * A write: the routed component takes it and nothing else changes. ROM is
     * writable through the bus; RAM and ROM cells take the value as given.
     */
    method Write(address: Word, value: bv8)
      requires Valid()
      modifies Repr
      ensures Valid() && Repr == old(Repr) && externalDevices == old(externalDevices)
      ensures forall o :: o in Repr && o !in Target(RouteOf(externalDevices, address, true)) ==> unchanged(o)
      ensures RouteOf(externalDevices, address, true).Ram? ==>
          ram[..] == old(ram[..])[RouteOf(externalDevices, address, true).cell := value]
      ensures RouteOf(externalDevices, address, true).Rom? ==>
          rom[..] == old(rom[..])[RouteOf(externalDevices, address, true).cell := value]
    {
      RoutesAreInRange(externalDevices, address, true);
      var k := FindClaimant(address, true);
      if k.Some? {
        ExternalWrite(k.value, address, value);
      } else if c64io.HandlesWrite(address) {
        C64Write(address, value);
      } else if address < ROM_BASE {
        StoreCell(ram, address % RAM_SIZE, value);
      } else if ROM_BASE <= address <= 0xFFFF {
        StoreCell(rom, address - ROM_BASE, value);
      } else if SERIAL_BASE <= address <= SERIAL_END {
      } else if AUDIO_BASE <= address <= AUDIO_END {
      }
    }

    /**
     * Copies `data` to the start of ROM. An image larger than the ROM is
     * refused (the source throws) and nothing changes.
     */
    method LoadROM(data: seq<bv8>) returns (ok: bool)
      requires Valid()
      modifies rom
      ensures Valid()
      ensures ok <==> |data| <= ROM_SIZE
      ensures ok ==> rom[..|data|] == data && rom[|data|..] == old(rom[|data|..])
      ensures !ok ==> rom[..] == old(rom[..])
    {
      if |data| > ROM_SIZE {
        return false;
      }
      var i := 0;
      while i < |data|
        invariant 0 <= i <= |data|
        invariant rom[..i] == data[..i] && rom[i..] == old(rom[i..])
      {
        StoreCell(rom, i, data[i]);
        i := i + 1;
      }
      return true;
    }

    /** Zeroes all of RAM; ROM and the devices are untouched. */
    method ClearRAM()
      requires Valid()
      modifies ram
      ensures Valid()
      ensures forall i :: 0 <= i < RAM_SIZE ==> ram[i] == 0
    {
      var i := 0;
      while i < RAM_SIZE
        invariant 0 <= i <= RAM_SIZE && Valid()
        invariant forall a :: 0 <= a < i ==> ram[a] == 0
      {
        StoreCell(ram, i, 0);
        i := i + 1;
      }
    }

    /**
     * Adds a device at the end of the list unless it is missing (a null
     * pointer) or already registered.
     */
    method RegisterIODevice(device: Option<Device>)
      requires Valid()
      requires device.Some? ==> DeviceValid(device.value)
      requires device.Some? ==> ram !in DeviceFrame(device.value) && rom !in DeviceFrame(device.value)
      modifies this
      ensures Valid() && ram == old(ram) && rom == old(rom) && c64io == old(c64io)
      ensures device.None? ==> externalDevices == old(externalDevices)
      ensures device.Some? ==> externalDevices == WithDevice(old(externalDevices), device.value)
    {
      if device.None? {
        return;
      }
      var d := device.value;
      var devices := AddIfAbsent(externalDevices, d);
      ghost var before := externalDevices;
      ghost var repr := Repr;
      Repr := Repr + DeviceReads(d) + DeviceFrame(d);
      externalDevices := devices;
      forall j | 0 <= j < |externalDevices|
        ensures ObjectOf(externalDevices[j]) in Repr && DeviceReads(externalDevices[j]) <= Repr
        ensures Separate(externalDevices[j], ram, rom, Repr)
      {
        if j < |before| {
          assert externalDevices[j] == before[j];
          SeparateGrows(before[j], ram, rom, repr, Repr);
        }
      }
    }

    /** Removes every occurrence of a device, keeping the others in order; a null pointer is ignored. */
    method UnregisterIODevice(device: Option<Device>)
      requires Valid()
      modifies this
      ensures Valid() && ram == old(ram) && rom == old(rom) && c64io == old(c64io)
      ensures device.None? ==> externalDevices == old(externalDevices)
      ensures device.Some? ==> externalDevices == WithoutDevice(old(externalDevices), device.value)
    {
      if device.None? {
        return;
      }
      var kept := RemoveAll(externalDevices, device.value);
      externalDevices := kept;
    }
  }

  /** The list with `d`, found by one pass over it (`std::find`) and appended when absent. */
  method AddIfAbsent(devices: seq<Device>, d: Device) returns (r: seq<Device>)
    ensures r == WithDevice(devices, d)
  {
    var i := 0;
    while i < |devices| && devices[i] != d
      invariant 0 <= i <= |devices|
      invariant d !in devices[..i]
    {
      i := i + 1;
    }
    if i == |devices| {
      assert devices[..i] == devices;
      r := devices + [d];
    } else {
      r := devices;
    }
  }

  /** The list without `d`, built by one pass that keeps every other device in order (`std::remove`). */
  method RemoveAll(devices: seq<Device>, d: Device) returns (kept: seq<Device>)
    ensures kept == WithoutDevice(devices, d)
  {
    kept := [];
    var i := 0;
    while i < |devices|
      invariant 0 <= i <= |devices|
      invariant kept == WithoutDevice(devices[..i], d)
    {
      assert devices[..i + 1] == devices[..i] + [devices[i]];
      WithoutSnoc(devices[..i], devices[i], d);
      if devices[i] != d {
        kept := kept + [devices[i]];
      }
      i := i + 1;
    }
    assert devices[..i] == devices;
  }

  /** One device's footprint holds no other device's objects. */
  lemma FrameIsApart(a: Device, b: Device)
    requires a != b
    ensures forall o :: o in DeviceFrame(a) ==> o !in DeviceReads(b)
  {
  }

  /** No device's objects are arrays. */
  lemma ArrayIsNoDevice(cells: array<bv8>, d: Device)
    ensures cells !in DeviceReads(d)
  {
  }

  /** Removing from a list extended by one element. */
  lemma {:induction false} WithoutSnoc(devices: seq<Device>, x: Device, d: Device)
    ensures WithoutDevice(devices + [x], d) == WithoutDevice(devices, d) + (if x == d then [] else [x])
  {
    if devices != [] {
      assert (devices + [x])[1..] == devices[1..] + [x];
      WithoutSnoc(devices[1..], x, d);
    }
  }

  /** An address no device and no C64 I/O claims reaches the same RAM or ROM cell on a read and on a write. */
  lemma ReadAndWriteShareCell(devices: seq<Device>, address: Word)
    requires forall j :: 0 <= j < |devices| ==> !Claims(devices[j], address, false) && !Claims(devices[j], address, true)
    requires !C64Claims(address, false) && !C64Claims(address, true)
    ensures RouteOf(devices, address, true) == RouteOf(devices, address, false)
    ensures RouteOf(devices, address, true).Ram? || RouteOf(devices, address, true).Rom?
  {
    MemoryRouting(devices, address, false);
    MemoryRouting(devices, address, true);
  }

  /** What is written to an unclaimed address reads back: RAM and ROM both hold it. */
  method WriteThenRead(bus: SystemMap, address: Word, value: bv8) returns (read: bv8)
    requires bus.Valid()
    requires forall j :: 0 <= j < |bus.externalDevices| ==>
      !Claims(bus.externalDevices[j], address, false) && !Claims(bus.externalDevices[j], address, true)
    requires !C64Claims(address, false) && !C64Claims(address, true)
    modifies bus.Repr
    ensures read == value
  {
    ReadAndWriteShareCell(bus.externalDevices, address);
    bus.Write(address, value);
    read := bus.Read(address);
  }
}
