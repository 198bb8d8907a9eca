/*
 * The memory-mapped 32-bit timer of src/devices/basic_timer.cpp. Counter and
 * limit are u32 registers exposed one byte at a time at 0xFC00-0xFC07; the
 * control byte at 0xFC08 drives the enable, IRQ-enable, IRQ-clear, reset and
 * auto-reload bits; 0xFC09 is a read-only status byte. Counter and limit are
 * `U32`, so the addition in `tick` wraps modulo 2^32 exactly as the C++
 * uint32_t does. The mutex and atomics of the source serialise access and
 * are plain fields here.
 */
module Timers {
  import opened Bits

  const COUNTER_LOW: Word := 0xFC00
  const LIMIT_LOW: Word := 0xFC04
  const CONTROL_ADDR: Word := 0xFC08
  const STATUS_ADDR: Word := 0xFC09

  const CTRL_ENABLE: bv8 := 0x01
  const CTRL_IRQ_ENABLE: bv8 := 0x02
  const CTRL_IRQ_FLAG: bv8 := 0x04
  const CTRL_RESET: bv8 := 0x08
  const CTRL_AUTO_RELOAD: bv8 := 0x10

  const STATUS_ENABLED: bv8 := 0x01
  const STATUS_IRQ_PENDING: bv8 := 0x02
  const STATUS_LIMIT_REACHED: bv8 := 0x04

  /** The four base-256 digits of a u32, least significant first. */
  function Digits(x: U32): (d: seq<int>)
    ensures |d| == 4 && forall j :: 0 <= j < 4 ==> 0 <= d[j] < 256
  {
    [x % 256, (x / 256) % 256, (x / 256 / 256) % 256, x / 256 / 256 / 256]
  }

  /** The u32 whose base-256 digits are `d`. */
  function FromDigits(d: seq<int>): int
    requires |d| == 4
  {
    d[0] + 256 * (d[1] + 256 * (d[2] + 256 * d[3]))
  }

  lemma DivMod256(a: int, b: int)
    requires 0 <= a < 256
    ensures (a + 256 * b) % 256 == a && (a + 256 * b) / 256 == b
  {
  }

  /** Digits are unique: reading the digits of an assembled value gives them back. */
  lemma DigitsOfFromDigits(d: seq<int>)
    requires |d| == 4 && forall j :: 0 <= j < 4 ==> 0 <= d[j] < 256
    ensures 0 <= FromDigits(d) < U32_MOD
    ensures Digits(FromDigits(d)) == d
  {
    var x := FromDigits(d);
    var q1 := d[1] + 256 * (d[2] + 256 * d[3]);
    var q2 := d[2] + 256 * d[3];
    DivMod256(d[0], q1);
    DivMod256(d[1], q2);
    DivMod256(d[2], d[3]);
    assert x / 256 == q1 && q1 / 256 == q2 && q2 / 256 == d[3];
  }

  /** Byte `k` (0 = least significant) of a 32-bit register: `(x >> 8k) & 0xFF`. */
  function ReadByte(x: U32, k: nat): (b: bv8)
    requires k < 4
    ensures b as int == Digits(x)[k]
  {
    ByteOfValue(Digits(x)[k])
  }

  /** The register with byte `k` replaced by `v`, as the source's mask-and-or does. */
  function WriteByte(x: U32, k: nat, v: bv8): (r: U32)
    requires k < 4
    ensures ReadByte(r, k) == v
    ensures forall j :: 0 <= j < 4 && j != k ==> ReadByte(r, j) == ReadByte(x, j)
  {
    var d := Digits(x)[k := v as int];
    DigitsOfFromDigits(d);
    var r := FromDigits(d);
    BytesEqual(ReadByte(r, k), v);
    forall j | 0 <= j < 4 && j != k
      ensures ReadByte(r, j) == ReadByte(x, j)
    {
      BytesEqual(ReadByte(r, j), ReadByte(x, j));
    }
    r
  }

  /** A register is determined by its four bytes. */
  lemma BytesDetermineRegister(x: U32, y: U32)
    requires forall j :: 0 <= j < 4 ==> ReadByte(x, j) == ReadByte(y, j)
    ensures x == y
  {
    assert Digits(x) == Digits(y) by {
      forall j | 0 <= j < 4
        ensures Digits(x)[j] == Digits(y)[j]
      {
        assert ReadByte(x, j) == ReadByte(y, j);
      }
    }
    DigitsOfValue(x);
    DigitsOfValue(y);
  }

  /** Assembling the digits of `x` gives back `x`. */
  lemma DigitsOfValue(x: U32)
    ensures FromDigits(Digits(x)) == x
  {
  }

  /**
   * Writing the four bytes of a register, lowest first, from any starting
   * value gives back exactly those four bytes.
   */
  lemma FourWritesRoundTrip(x: U32, b0: bv8, b1: bv8, b2: bv8, b3: bv8)
    ensures var r := WriteByte(WriteByte(WriteByte(WriteByte(x, 0, b0), 1, b1), 2, b2), 3, b3);
            ReadByte(r, 0) == b0 && ReadByte(r, 1) == b1 && ReadByte(r, 2) == b2 && ReadByte(r, 3) == b3
  {
    var r0 := WriteByte(x, 0, b0);
    var r1 := WriteByte(r0, 1, b1);
    var r2 := WriteByte(r1, 2, b2);
    var r3 := WriteByte(r2, 3, b3);
    assert ReadByte(r3, 0) == ReadByte(r2, 0) == ReadByte(r1, 0) == ReadByte(r0, 0);
    assert ReadByte(r3, 1) == ReadByte(r2, 1) == ReadByte(r1, 1);
    assert ReadByte(r3, 2) == ReadByte(r2, 2);
  }

  /** uint32_t addition, which wraps modulo 2^32. */
  function Add32(a: U32, b: U32): (r: U32)
    ensures r == (a + b) % U32_MOD
  {
    (a + b) % U32_MOD
  }

  /** Control byte `ctrl` with its enable bit (bit 0) set to `en` and every other bit kept. */
  function WithEnable(ctrl: bv8, en: bool): (r: bv8)
    ensures r & CTRL_ENABLE != 0 <==> en
    ensures r & !CTRL_ENABLE == ctrl & !CTRL_ENABLE
  {
    if en then ctrl | CTRL_ENABLE else ctrl & !CTRL_ENABLE
  }

  class BasicTimer {
    var counter: U32
    var limit: U32
    var control: bv8
    var enabled: bool
    var irqEnabled: bool
    var irqPending: bool
    var autoReload: bool
    var limitReached: bool
    var initialized: bool

    constructor()
      ensures counter == 0 && limit == 0 && control == 0
      ensures !enabled && !irqEnabled && !irqPending && !autoReload && !limitReached && !initialized
    {
      counter, limit, control := 0, 0, 0;
      enabled, irqEnabled, irqPending, autoReload, limitReached, initialized := false, false, false, false, false, false;
    }

    /** The first call zeroes every register; later calls change nothing. Both report success. */
    method Initialize() returns (ok: bool)
      modifies this
      ensures ok && initialized
      ensures !old(initialized) ==>
                counter == 0 && limit == 0 && control == 0 &&
                !enabled && !irqEnabled && !irqPending && !autoReload && !limitReached
      ensures old(initialized) ==>
                counter == old(counter) && limit == old(limit) && control == old(control) &&
                enabled == old(enabled) && irqEnabled == old(irqEnabled) && irqPending == old(irqPending) &&
                autoReload == old(autoReload) && limitReached == old(limitReached)
    {
      if initialized {
        return true;
      }
      counter, limit, control := 0, 0, 0;
      enabled, irqEnabled, irqPending, autoReload, limitReached := false, false, false, false, false;
      initialized := true;
      return true;
    }

    /** An initialised timer is stopped with its interrupt disabled and cleared. */
    method Cleanup()
      modifies this
      ensures !initialized
      ensures old(initialized) ==> !enabled && !irqEnabled && !irqPending
      ensures !old(initialized) ==> enabled == old(enabled) && irqEnabled == old(irqEnabled) && irqPending == old(irqPending)
      ensures counter == old(counter) && limit == old(limit) && control == old(control)
      ensures autoReload == old(autoReload) && limitReached == old(limitReached)
    {
      if !initialized {
        return;
      }
      enabled, irqEnabled, irqPending := false, false, false;
      initialized := false;
    }

    /** Ten registers: four counter bytes, four limit bytes, control and status. */
    predicate HandlesRead(address: Word)
      ensures HandlesRead(address) <==> 0 <= address - COUNTER_LOW < 10
    {
      COUNTER_LOW <= address <= STATUS_ADDR
    }

    /** The status register is not writable. */
    predicate HandlesWrite(address: Word)
      ensures HandlesWrite(address) <==> 0 <= address - COUNTER_LOW < 9
      ensures address == STATUS_ADDR ==> !HandlesWrite(address)
    {
      COUNTER_LOW <= address <= CONTROL_ADDR
    }

    /** Bit 0: enabled, bit 1: IRQ pending, bit 2: limit reached; the other bits read 0. */
    function StatusRegister(): (s: bv8)
      reads this
      ensures BitOf(s, 0) <==> enabled
      ensures BitOf(s, 1) <==> irqPending
      ensures BitOf(s, 2) <==> limitReached
      ensures s & 0xF8 == 0
    {
      (if enabled then STATUS_ENABLED else 0) | (if irqPending then STATUS_IRQ_PENDING else 0)
        | (if limitReached then STATUS_LIMIT_REACHED else 0)
    }

    /** The byte a read of `address` returns. */
    function ReadValue(address: Word): (v: bv8)
      reads this
      ensures COUNTER_LOW <= address < LIMIT_LOW ==> v as int == Digits(counter)[address - COUNTER_LOW]
      ensures LIMIT_LOW <= address < CONTROL_ADDR ==> v as int == Digits(limit)[address - LIMIT_LOW]
      ensures address == CONTROL_ADDR ==> v == control
      ensures address == STATUS_ADDR ==> v == StatusRegister()
      ensures !HandlesRead(address) ==> v == 0
    {
      if COUNTER_LOW <= address < LIMIT_LOW then ReadByte(counter, address - COUNTER_LOW)
      else if LIMIT_LOW <= address < CONTROL_ADDR then ReadByte(limit, address - LIMIT_LOW)
      else if address == CONTROL_ADDR then control
      else if address == STATUS_ADDR then StatusRegister()
      else 0
    }

    /** Reads have no side effect. */
    method Read(address: Word) returns (value: bv8)
      ensures value == ReadValue(address)
      ensures !HandlesRead(address) ==> value == 0
    {
      if COUNTER_LOW <= address < LIMIT_LOW {
        value := ReadByte(counter, address - COUNTER_LOW);
      } else if LIMIT_LOW <= address < CONTROL_ADDR {
        value := ReadByte(limit, address - LIMIT_LOW);
      } else if address == CONTROL_ADDR {
        value := control;
      } else if address == STATUS_ADDR {
        value := StatusRegister();
      } else {
        value := 0;
      }
    }

    /**
     * Stores the control byte verbatim and takes the enable, IRQ-enable and
     * auto-reload flags from bits 0, 1 and 4. Bit 2 clears a pending IRQ; bit 3
     * zeroes the counter and clears the limit-reached and pending flags.
     */
    method UpdateControlFlags(value: bv8)
      modifies this
      ensures control == value
      ensures enabled == (value & CTRL_ENABLE != 0)
      ensures irqEnabled == (value & CTRL_IRQ_ENABLE != 0)
      ensures autoReload == (value & CTRL_AUTO_RELOAD != 0)
      ensures irqPending == (old(irqPending) && value & CTRL_IRQ_FLAG == 0 && value & CTRL_RESET == 0)
      ensures counter == (if value & CTRL_RESET != 0 then 0 else old(counter))
      ensures limitReached == (old(limitReached) && value & CTRL_RESET == 0)
      ensures limit == old(limit) && initialized == old(initialized)
    {
      control := value;
      enabled := value & CTRL_ENABLE != 0;
      irqEnabled := value & CTRL_IRQ_ENABLE != 0;
      autoReload := value & CTRL_AUTO_RELOAD != 0;
      if value & CTRL_IRQ_FLAG != 0 {
        irqPending := false;
      }
      if value & CTRL_RESET != 0 {
        counter := 0;
        limitReached := false;
        irqPending := false;
      }
    }

    /** Counter and limit writes replace one byte; a control write updates the flags; other writes are ignored. */
    method Write(address: Word, value: bv8)
      modifies this
      ensures COUNTER_LOW <= address < LIMIT_LOW ==>
                counter == WriteByte(old(counter), address - COUNTER_LOW, value) &&
                limit == old(limit) && control == old(control) && enabled == old(enabled) &&
                irqEnabled == old(irqEnabled) && irqPending == old(irqPending) &&
                autoReload == old(autoReload) && limitReached == old(limitReached)
      ensures LIMIT_LOW <= address < CONTROL_ADDR ==>
                limit == WriteByte(old(limit), address - LIMIT_LOW, value) &&
                counter == old(counter) && control == old(control) && enabled == old(enabled) &&
                irqEnabled == old(irqEnabled) && irqPending == old(irqPending) &&
                autoReload == old(autoReload) && limitReached == old(limitReached)
      ensures address == CONTROL_ADDR ==>
                control == value && limit == old(limit) &&
                enabled == (value & CTRL_ENABLE != 0) && irqEnabled == (value & CTRL_IRQ_ENABLE != 0) &&
                autoReload == (value & CTRL_AUTO_RELOAD != 0) &&
                irqPending == (old(irqPending) && value & CTRL_IRQ_FLAG == 0 && value & CTRL_RESET == 0) &&
                counter == (if value & CTRL_RESET != 0 then 0 else old(counter)) &&
                limitReached == (old(limitReached) && value & CTRL_RESET == 0)
      ensures !HandlesWrite(address) ==>
                counter == old(counter) && limit == old(limit) &&
                control == old(control) && enabled == old(enabled) && irqEnabled == old(irqEnabled) &&
                irqPending == old(irqPending) && autoReload == old(autoReload) && limitReached == old(limitReached)
      ensures initialized == old(initialized)
    {
      if COUNTER_LOW <= address < LIMIT_LOW {
        counter := WriteByte(counter, address - COUNTER_LOW, value);
      } else if LIMIT_LOW <= address < CONTROL_ADDR {
        limit := WriteByte(limit, address - LIMIT_LOW, value);
      } else if address == CONTROL_ADDR {
        UpdateControlFlags(value);
      }
    }

    method SetCounter(value: U32)
      modifies this
      ensures counter == value && limit == old(limit) && control == old(control)
      ensures enabled == old(enabled) && irqEnabled == old(irqEnabled) && irqPending == old(irqPending)
      ensures autoReload == old(autoReload) && limitReached == old(limitReached) && initialized == old(initialized)
    {
      counter := value;
    }

    method SetLimit(value: U32)
      modifies this
      ensures limit == value && counter == old(counter) && control == old(control)
      ensures enabled == old(enabled) && irqEnabled == old(irqEnabled) && irqPending == old(irqPending)
      ensures autoReload == old(autoReload) && limitReached == old(limitReached) && initialized == old(initialized)
    {
      limit := value;
    }

    /** Zeroes the counter and clears the pending and limit-reached flags; the configuration stays. */
    method Reset()
      modifies this
      ensures counter == 0 && !irqPending && !limitReached
      ensures limit == old(limit) && control == old(control) && enabled == old(enabled)
      ensures irqEnabled == old(irqEnabled) && autoReload == old(autoReload) && initialized == old(initialized)
    {
      counter := 0;
      irqPending := false;
      limitReached := false;
    }

    /** Starts or stops the timer and mirrors the choice in control bit 0. */
    method SetEnabled(en: bool)
      modifies this
      ensures enabled == en
      ensures control == WithEnable(old(control), en)
      ensures counter == old(counter) && limit == old(limit) && irqEnabled == old(irqEnabled)
      ensures irqPending == old(irqPending) && autoReload == old(autoReload)
      ensures limitReached == old(limitReached) && initialized == old(initialized)
    {
      enabled := en;
      control := WithEnable(control, en);
    }

    /** The timer requests an interrupt only while one is pending and interrupts are enabled. */
    function HasIRQ(): bool
      reads this
      ensures HasIRQ() <==> irqEnabled && BitOf(StatusRegister(), 1)
    {
      irqPending && irqEnabled
    }

    method ClearIRQ()
      modifies this
      ensures !irqPending && !HasIRQ()
      ensures counter == old(counter) && limit == old(limit) && control == old(control)
      ensures enabled == old(enabled) && irqEnabled == old(irqEnabled) && autoReload == old(autoReload)
      ensures limitReached == old(limitReached) && initialized == old(initialized)
    {
      irqPending := false;
    }

    /**
     * Advances the counter by `cycles` (wrapping at 2^32). When a non-zero
     * limit is reached the limit-reached flag is set, an IRQ is raised if
     * enabled, and the counter either reloads with the overshoot or stops at
     * the limit with the timer disabled.
     */
    method Tick(cycles: U32)
      modifies this
      ensures !old(enabled) ==>
                counter == old(counter) && enabled == old(enabled) && control == old(control) &&
                irqPending == old(irqPending) && limitReached == old(limitReached)
      ensures old(enabled) && (limit == 0 || Add32(old(counter), cycles) < limit) ==>
                counter == Add32(old(counter), cycles) && enabled && control == old(control) &&
                irqPending == old(irqPending) && limitReached == old(limitReached)
      ensures old(enabled) && limit != 0 && Add32(old(counter), cycles) >= limit ==>
                limitReached && irqPending == (old(irqPending) || irqEnabled)
      ensures old(enabled) && limit != 0 && Add32(old(counter), cycles) >= limit && autoReload ==>
                counter == Add32(old(counter), cycles) - limit && enabled && control == old(control)
      ensures old(enabled) && limit != 0 && Add32(old(counter), cycles) >= limit && !autoReload ==>
                counter == limit && !enabled && control == WithEnable(old(control), false)
      ensures limit == old(limit) && irqEnabled == old(irqEnabled) && autoReload == old(autoReload)
      ensures initialized == old(initialized)
    {
      if !enabled {
        return;
      }
      var current := Add32(counter, cycles);
      if limit > 0 && current >= limit {
        ReachLimit(current);
      } else {
        counter := current;
      }
    }

    /** The limit branch of `Tick`, entered with the advanced count `current`. */
    method ReachLimit(current: U32)
      requires enabled && 0 < limit <= current
      modifies this
      ensures limitReached && irqPending == (old(irqPending) || irqEnabled)
      ensures autoReload ==> counter == current - limit && enabled && control == old(control)
      ensures !autoReload ==> counter == limit && !enabled && control == WithEnable(old(control), false)
      ensures limit == old(limit) && irqEnabled == old(irqEnabled) && autoReload == old(autoReload)
      ensures initialized == old(initialized)
    {
      var next := current;
      limitReached := true;
      if irqEnabled {
        irqPending := true;
      }
      if autoReload {
        next := next - limit;
      } else {
        next := limit;
        SetEnabled(false);
      }
      counter := next;
    }
  }

  /**
   * A one-shot timer that reaches its limit stops there: the counter holds
   * the limit, the enable bit is gone from control and status, and a later
   * tick, however long, changes none of them.
   */
  method StoppedAtLimit(t: BasicTimer, cycles: U32, later: U32)
    returns (stoppedCounter: U32, stoppedControl: bv8, stoppedStatus: bv8)
    requires t.enabled && !t.autoReload && t.limit != 0 && Add32(t.counter, cycles) >= t.limit
    modifies t
    ensures stoppedCounter == old(t.limit) && stoppedControl == WithEnable(old(t.control), false)
    ensures !BitOf(stoppedStatus, 0) && BitOf(stoppedStatus, 2)
    ensures t.counter == stoppedCounter && t.control == stoppedControl && t.StatusRegister() == stoppedStatus
  {
    t.Tick(cycles);
    stoppedCounter, stoppedControl, stoppedStatus := t.counter, t.control, t.StatusRegister();
    t.Tick(later);
  }

  /**
   * Auto-reload keeps the overshoot: with limit 100, ticking 150 cycles
   * leaves 50 counted, raises the IRQ and reports all three status bits.
   */
  method AutoReloadScenario() returns (counter: U32, irq: bool, status: bv8)
    ensures counter == 50 && irq && status == 0x07
  {
    var t := new BasicTimer();
    t.SetLimit(100);
    t.Write(CONTROL_ADDR, CTRL_ENABLE | CTRL_IRQ_ENABLE | CTRL_AUTO_RELOAD);
    t.Tick(150);
    counter := t.counter;
    irq := t.HasIRQ();
    status := t.Read(STATUS_ADDR);
  }

  /**
   * Without auto-reload the counter stops at the limit, the timer raises its
   * IRQ and disables itself, and later cycles leave the counter where it is.
   */
  method OneShotScenario()
    returns (enabledBefore: bool, autoReload: bool, irq: bool, counter: U32, enabledAfter: bool, control: bv8, later: U32)
    ensures enabledBefore && !autoReload
    ensures irq && counter == 100 && !enabledAfter
    ensures control == CTRL_IRQ_ENABLE && later == 100
  {
    var t := new BasicTimer();
    t.SetLimit(100);
    t.Write(CONTROL_ADDR, CTRL_ENABLE | CTRL_IRQ_ENABLE);
    enabledBefore, autoReload := t.enabled, t.autoReload;
    t.Tick(150);
    irq := t.HasIRQ();
    counter, enabledAfter := t.counter, t.enabled;
    control := t.Read(CONTROL_ADDR);
    t.Tick(500);
    later := t.counter;
  }

  /** The limit is loaded and read back one byte at a time, lowest byte first. */
  method ByteRegisterScenario() returns (bytes: seq<bv8>, limit: U32)
    ensures bytes == [0x40, 0x42, 0x0F, 0x00] && limit == 1000000
  {
    var t := new BasicTimer();
    t.Write(LIMIT_LOW, 0x40);
    t.Write(LIMIT_LOW + 1, 0x42);
    t.Write(LIMIT_LOW + 2, 0x0F);
    t.Write(LIMIT_LOW + 3, 0x00);
    var b0 := t.Read(LIMIT_LOW);
    var b1 := t.Read(LIMIT_LOW + 1);
    var b2 := t.Read(LIMIT_LOW + 2);
    var b3 := t.Read(LIMIT_LOW + 3);
    bytes := [b0, b1, b2, b3];
    limit := t.limit;
  }
}
