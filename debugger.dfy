/*
 * The debugger of src/debugger/debugger.cpp: breakpoint and watchpoint sets,
 * a trace of executed instructions, a log of memory accesses, and the
 * "a breakpoint was hit" flag with the address that last triggered it. Once
 * set, that flag is never cleared: every operation below keeps it.
 */
module Debugging {
  import opened Bits
  import opened Memory
  import opened Cpu

  datatype MemoryEvent = MemoryEvent(address: Word, value: bv8, isWrite: bool)
  datatype TraceEvent = TraceEvent(address: Word, opcode: bv8)

  /** A snapshot of the registers; each flag is 0 or 1. */
  datatype CpuState = CpuState(
    pc: Word, sp: bv8, a: bv8, x: bv8, y: bv8,
    c: bv8, z: bv8, i: bv8, d: bv8, b: bv8, v: bv8, n: bv8)

  function FlagByte(f: bool): bv8
  {
    if f then 1 else 0
  }

  class Debugger {
    var cpu: CPU?
    var mem: Mem?
    var breakpoints: set<Word>
    var watchpoints: set<Word>
    var memoryEvents: seq<MemoryEvent>
    var traceEvents: seq<TraceEvent>
    var lastBreakpoint: Word
    var hitBreakpoint: bool

    /** Nothing attached, no breakpoints or watchpoints, empty logs, nothing hit. */
    constructor()
      ensures cpu == null && mem == null
      ensures breakpoints == {} && watchpoints == {}
      ensures memoryEvents == [] && traceEvents == []
      ensures lastBreakpoint == 0 && !hitBreakpoint
    {
      cpu := null;
      mem := null;
      breakpoints := {};
      watchpoints := {};
      memoryEvents := [];
      traceEvents := [];
      lastBreakpoint := 0;
      hitBreakpoint := false;
    }

    method Attach(c: CPU?, m: Mem?)
      modifies this
      ensures cpu == c && mem == m
      ensures breakpoints == old(breakpoints) && watchpoints == old(watchpoints)
      ensures memoryEvents == old(memoryEvents) && traceEvents == old(traceEvents)
      ensures lastBreakpoint == old(lastBreakpoint) && hitBreakpoint == old(hitBreakpoint)
    {
      cpu := c;
      mem := m;
    }

    method AddBreakpoint(address: Word)
      modifies this`breakpoints
      ensures breakpoints == old(breakpoints) + {address}
    {
      breakpoints := breakpoints + {address};
    }

    method RemoveBreakpoint(address: Word)
      modifies this`breakpoints
      ensures breakpoints == old(breakpoints) - {address}
    {
      breakpoints := breakpoints - {address};
    }

    /** Set exactly when adding it again changes nothing and removing it changes the set. */
    predicate HasBreakpoint(address: Word)
      reads this`breakpoints
      ensures HasBreakpoint(address) <==> breakpoints + {address} == breakpoints
      ensures HasBreakpoint(address) <==> breakpoints - {address} != breakpoints
    {
      address in breakpoints
    }

    method ClearBreakpoints()
      modifies this`breakpoints
      ensures breakpoints == {}
    {
      breakpoints := {};
    }

    method AddWatchpoint(address: Word)
      modifies this`watchpoints
      ensures watchpoints == old(watchpoints) + {address}
    {
      watchpoints := watchpoints + {address};
    }

    method RemoveWatchpoint(address: Word)
      modifies this`watchpoints
      ensures watchpoints == old(watchpoints) - {address}
    {
      watchpoints := watchpoints - {address};
    }

    /** Set exactly when adding it again changes nothing and removing it changes the set. */
    predicate HasWatchpoint(address: Word)
      reads this`watchpoints
      ensures HasWatchpoint(address) <==> watchpoints + {address} == watchpoints
      ensures HasWatchpoint(address) <==> watchpoints - {address} != watchpoints
    {
      address in watchpoints
    }

    method ClearWatchpoints()
      modifies this`watchpoints
      ensures watchpoints == {}
    {
      watchpoints := {};
    }

    /** Execution stops at `pc` exactly when a breakpoint is set there. */
    predicate ShouldBreak(pc: Word)
      reads this`breakpoints
      ensures ShouldBreak(pc) <==> pc in breakpoints
    {
      HasBreakpoint(pc)
    }

    /** Records that execution stopped at `pc`. */
    method NotifyBreakpoint(pc: Word)
      modifies this`hitBreakpoint, this`lastBreakpoint
      ensures hitBreakpoint && lastBreakpoint == pc
    {
      hitBreakpoint := true;
      lastBreakpoint := pc;
    }

    /** Appends one instruction to the trace. */
    method TraceInstruction(pc: Word, opcode: bv8)
      modifies this`traceEvents
      ensures traceEvents == old(traceEvents) + [TraceEvent(pc, opcode)]
    {
      traceEvents := traceEvents + [TraceEvent(pc, opcode)];
    }

    /**
     * Logs one memory access; an access to a watched address counts as a hit
     * and becomes the last breakpoint. The hit flag is never cleared.
     */
    method NotifyMemoryAccess(address: Word, value: bv8, isWrite: bool)
      modifies this`memoryEvents, this`hitBreakpoint, this`lastBreakpoint
      ensures memoryEvents == old(memoryEvents) + [MemoryEvent(address, value, isWrite)]
      ensures address in watchpoints ==> hitBreakpoint && lastBreakpoint == address
      ensures address !in watchpoints ==>
          hitBreakpoint == old(hitBreakpoint) && lastBreakpoint == old(lastBreakpoint)
    {
      memoryEvents := memoryEvents + [MemoryEvent(address, value, isWrite)];
      if HasWatchpoint(address) {
        hitBreakpoint := true;
        lastBreakpoint := address;
      }
    }

    /** The registers of the attached CPU, or all zeros when none is attached. */
    function InspectCPU(): (st: CpuState)
      reads this, cpu
      ensures cpu == null ==> st == CpuState(0, 0, 0, 0, 0, 0, 0, 0, 0, 0, 0, 0)
      ensures cpu != null ==> st.pc == cpu.PC && st.sp == cpu.SP && st.a == cpu.A && st.x == cpu.X && st.y == cpu.Y
      ensures cpu != null ==> (st.c == 1 <==> cpu.C) && (st.z == 1 <==> cpu.Z) && (st.n == 1 <==> cpu.N)
      ensures cpu != null ==> (st.i == 1 <==> cpu.I) && (st.d == 1 <==> cpu.D) && (st.b == 1 <==> cpu.B) && (st.v == 1 <==> cpu.V)
    {
      if cpu == null then CpuState(0, 0, 0, 0, 0, 0, 0, 0, 0, 0, 0, 0)
      else CpuState(cpu.PC, cpu.SP, cpu.A, cpu.X, cpu.Y,
                    FlagByte(cpu.C), FlagByte(cpu.Z), FlagByte(cpu.I), FlagByte(cpu.D),
                    FlagByte(cpu.B), FlagByte(cpu.V), FlagByte(cpu.N))
    }

    /** The byte at `address` in the attached memory, or 0 when none is attached. */
    function ReadMemory(address: Word): (v: bv8)
      requires mem != null ==> mem.Valid()
      reads this, mem, if mem == null then {} else {mem.Data}
      ensures mem == null ==> v == 0
      ensures mem != null ==> v == mem.Data[address]
    {
      if mem == null then 0 else mem.Read(address)
    }

    /** Stores into the attached memory; does nothing when none is attached. */
    method WriteMemory(address: Word, value: bv8)
      requires mem != null ==> mem.Valid()
      modifies if mem == null then {} else {mem.Data}
      ensures mem != null ==> mem.Data[..] == old(mem.Data[..])[address := value]
    {
      if mem != null {
        mem.Write(address, value);
      }
    }
  }

  // ---------------------------------------------------------------
  // The debugger's behaviour on short sequences of calls
  // ---------------------------------------------------------------

  /** Breakpoints act as a set: added, found, removed; the watchpoints do not see them. */
  method BreakpointSetScenario() returns (afterAdd: bool, afterRemove: bool, watched: bool, other: bool)
    ensures afterAdd && !afterRemove && !watched && other
  {
    var dbg := new Debugger();
    dbg.AddBreakpoint(0x8003);
    dbg.AddBreakpoint(0x8010);
    dbg.AddBreakpoint(0x8003);
    afterAdd := dbg.ShouldBreak(0x8003);
    watched := dbg.HasWatchpoint(0x8003);
    dbg.RemoveBreakpoint(0x8003);
    afterRemove := dbg.ShouldBreak(0x8003);
    other := dbg.HasBreakpoint(0x8010);
  }

  /**
   * A store to a watched zero-page cell is a hit at that address; a later
   * unwatched access is logged but keeps the hit and its address.
   */
  method WatchpointScenario() returns (hit: bool, last: Word, logged: nat)
    ensures hit && last == 0x0000 && logged == 3
  {
    var dbg := new Debugger();
    dbg.AddWatchpoint(0x0000);
    dbg.NotifyMemoryAccess(0x8001, 0x10, false);
    dbg.NotifyMemoryAccess(0x0000, 0x10, true);
    dbg.NotifyMemoryAccess(0x0200, 0x01, true);
    hit := dbg.hitBreakpoint;
    last := dbg.lastBreakpoint;
    logged := |dbg.memoryEvents|;
  }

  /** Clearing the breakpoints does not clear a hit already recorded. */
  method HitIsStickyScenario() returns (hit: bool, last: Word, stops: bool)
    ensures hit && last == 0x8003 && !stops
  {
    var dbg := new Debugger();
    dbg.AddBreakpoint(0x8003);
    dbg.NotifyBreakpoint(0x8003);
    dbg.ClearBreakpoints();
    dbg.ClearWatchpoints();
    dbg.NotifyMemoryAccess(0x8003, 0xD0, false);
    hit := dbg.hitBreakpoint;
    last := dbg.lastBreakpoint;
    stops := dbg.ShouldBreak(0x8003);
  }

  /** With no memory attached a read gives 0 and a write changes nothing that can be read. */
  method DetachedMemoryScenario() returns (before: bv8, after: bv8)
    ensures before == 0 && after == 0
  {
    var dbg := new Debugger();
    before := dbg.ReadMemory(0x0200);
    dbg.WriteMemory(0x0200, 0x42);
    after := dbg.ReadMemory(0x0200);
  }

  /** The trace keeps instructions in the order they ran. */
  method TraceScenario() returns (trace: seq<TraceEvent>)
    ensures trace == [TraceEvent(0x8000, 0xA2), TraceEvent(0x8002, 0xCA), TraceEvent(0x8003, 0xD0)]
  {
    var dbg := new Debugger();
    dbg.TraceInstruction(0x8000, 0xA2);
    dbg.TraceInstruction(0x8002, 0xCA);
    dbg.TraceInstruction(0x8003, 0xD0);
    trace := dbg.traceEvents;
  }
}
