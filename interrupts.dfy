/*
 * The interrupt controller of src/interrupt/interrupt_controller.cpp.
 *
 * `InterruptSource` is an abstract interface in the C++ code; here a source
 * is an object holding the two pending flags that its `hasIRQ`/`hasNMI`
 * report and that `clearIRQ`/`clearNMI` reset.
 */
module Interrupts {

  class InterruptSource {
    var irq: bool
    var nmi: bool

    constructor(irq: bool, nmi: bool)
      ensures this.irq == irq && this.nmi == nmi
    {
      this.irq := irq;
      this.nmi := nmi;
    }

    method ClearIRQ()
      modifies this
      ensures !irq && nmi == old(nmi)
    {
      irq := false;
    }

    method ClearNMI()
      modifies this
      ensures !nmi && irq == old(irq)
    {
      nmi := false;
    }
  }

  /** `sources` with every occurrence of `x` removed (the erase-remove idiom); a null `x` removes nothing. */
  function Without(sources: seq<InterruptSource>, x: InterruptSource?): (r: seq<InterruptSource>)
    ensures forall i :: 0 <= i < |r| ==> r[i] in sources && r[i] != x
    ensures forall i :: 0 <= i < |sources| && sources[i] != x ==> sources[i] in r
    ensures |r| <= |sources|
  {
    if sources == [] then []
    else if sources[0] == x then Without(sources[1..], x)
    else [sources[0]] + Without(sources[1..], x)
  }

  /** Filtering a list that grew by one element filters that element alone. */
  lemma {:induction false} WithoutAppend(sources: seq<InterruptSource>, x: InterruptSource?, y: InterruptSource)
    ensures Without(sources + [y], x) == Without(sources, x) + (if y == x then [] else [y])
  {
    if sources != [] {
      assert (sources + [y])[1..] == sources[1..] + [y];
      WithoutAppend(sources[1..], x, y);
    }
  }

  /** Removing a source that is not registered leaves the list as it was. */
  lemma {:induction false} WithoutAbsent(sources: seq<InterruptSource>, x: InterruptSource?)
    requires x !in sources
    ensures Without(sources, x) == sources
  {
    if sources != [] {
      WithoutAbsent(sources[1..], x);
    }
  }

  /** The length drops by exactly the number of copies removed. */
  lemma {:induction false} WithoutCount(sources: seq<InterruptSource>, x: InterruptSource)
    ensures |Without(sources, x)| == |sources| - multiset(sources)[x]
  {
    if sources != [] {
      WithoutCount(sources[1..], x);
      assert sources == [sources[0]] + sources[1..];
    }
  }

  class InterruptController {
    var sources: seq<InterruptSource>

    constructor()
      ensures sources == []
    {
      sources := [];
    }

    /** Some registered source has an IRQ pending. */
    predicate PendingIRQ()
      reads this, sources
      ensures PendingIRQ() <==> exists s :: s in sources && s.irq
      ensures sources == [] ==> !PendingIRQ()
    {
      exists i :: 0 <= i < |sources| && sources[i].irq
    }

    /** Some registered source has an NMI pending. */
    predicate PendingNMI()
      reads this, sources
      ensures PendingNMI() <==> exists s :: s in sources && s.nmi
      ensures sources == [] ==> !PendingNMI()
    {
      exists i :: 0 <= i < |sources| && sources[i].nmi
    }

    /** Appends a non-null source; duplicates are kept. */
    method RegisterSource(source: InterruptSource?)
      modifies this
      ensures source == null ==> sources == old(sources)
      ensures source != null ==> sources == old(sources) + [source]
    {
      if source != null {
        sources := sources + [source];
      }
    }

    /** Removes every copy of `source`. */
    method UnregisterSource(source: InterruptSource?)
      modifies this
      ensures sources == Without(old(sources), source)
    {
      var all := sources;
      var kept: seq<InterruptSource> := [];
      var i := 0;
      while i < |all|
        invariant 0 <= i <= |all|
        invariant kept == Without(all[..i], source)
      {
        assert all[..i + 1] == all[..i] + [all[i]];
        WithoutAppend(all[..i], source, all[i]);
        if all[i] != source {
          kept := kept + [all[i]];
        }
        i := i + 1;
      }
      assert all[..i] == all;
      sources := kept;
    }

    method HasIRQ() returns (r: bool)
      ensures r <==> PendingIRQ()
    {
      var i := 0;
      while i < |sources|
        invariant 0 <= i <= |sources|
        invariant forall j :: 0 <= j < i ==> !sources[j].irq
      {
        if sources[i].irq {
          return true;
        }
        i := i + 1;
      }
      return false;
    }

    method HasNMI() returns (r: bool)
      ensures r <==> PendingNMI()
    {
      var i := 0;
      while i < |sources|
        invariant 0 <= i <= |sources|
        invariant forall j :: 0 <= j < i ==> !sources[j].nmi
      {
        if sources[i].nmi {
          return true;
        }
        i := i + 1;
      }
      return false;
    }

    /** Clears the IRQ of every source that reports one; NMI flags are left alone. */
    method AcknowledgeIRQ()
      modifies sources
      ensures forall s :: s in sources ==> !s.irq && s.nmi == old(s.nmi)
    {
      var i := 0;
      while i < |sources|
        invariant 0 <= i <= |sources|
        invariant forall s :: s in sources ==> s.irq == (old(s.irq) && s !in sources[..i])
        invariant forall s :: s in sources ==> s.nmi == old(s.nmi)
      {
        if sources[i].irq {
          sources[i].ClearIRQ();
        }
        assert sources[..i + 1] == sources[..i] + [sources[i]];
        i := i + 1;
      }
      assert sources[..i] == sources;
    }

    /** Clears the NMI of every source that reports one; IRQ flags are left alone. */
    method AcknowledgeNMI()
      modifies sources
      ensures forall s :: s in sources ==> !s.nmi && s.irq == old(s.irq)
    {
      var i := 0;
      while i < |sources|
        invariant 0 <= i <= |sources|
        invariant forall s :: s in sources ==> s.nmi == (old(s.nmi) && s !in sources[..i])
        invariant forall s :: s in sources ==> s.irq == old(s.irq)
      {
        if sources[i].nmi {
          sources[i].ClearNMI();
        }
        assert sources[..i + 1] == sources[..i] + [sources[i]];
        i := i + 1;
      }
      assert sources[..i] == sources;
    }

    /** Acknowledges all IRQs, then all NMIs: nothing remains pending. */
    method ClearAll()
      modifies sources
      ensures forall s :: s in sources ==> !s.irq && !s.nmi
      ensures !PendingIRQ() && !PendingNMI()
    {
      AcknowledgeIRQ();
      AcknowledgeNMI();
    }

    method GetSourceCount() returns (n: nat)
      ensures n == |sources|
    {
      n := |sources|;
    }
  }
}
