// The divider timer (timer.go): an internal tick counter that writes DIV + 1 to the memory map on
// every 256th tick. The memory map stores every write to DIV as 0, so DIV never moves.

module DividerTimer {
  import opened Bits
  import opened Memory

  /** The memory map after writing DIV + 1 to DIV. */
  function IncrementedDivider(m: Image): (r: Image)
    requires m.WellSized()
    ensures r.WellSized()
  {
    Write(m, DividerRegister, Read(m, DividerRegister) + 1)
  }

  /** The memory map after writing TIMA + 1 to TIMA. */
  function IncrementedCounter(m: Image): (r: Image)
    requires m.WellSized()
    ensures r.WellSized()
  {
    Write(m, TimerRegister, Read(m, TimerRegister) + 1)
  }

  /** One tick on (counter, memory map): the counter rises, and at 256 DIV is incremented and the counter restarts. */
  function TimerTick(divider: int, m: Image): (r: (int, Image))
    requires m.WellSized()
    ensures r.1.WellSized()
  {
    if divider + 1 == 256 then (0, IncrementedDivider(m)) else (divider + 1, m)
  }

  /** `n` ticks in a row. */
  function Ticks(divider: int, m: Image, n: nat): (r: (int, Image))
    requires m.WellSized()
    ensures r.1.WellSized()
    decreases n
  {
    if n == 0 then (divider, m)
    else
      var before := Ticks(divider, m, n - 1);
      TimerTick(before.0, before.1)
  }

  /** Incrementing DIV stores 0 there and changes nothing else: DIV reads 0 afterwards. */
  lemma DividerStaysZero(m: Image)
    requires m.WellSized()
    ensures IncrementedDivider(m) == m.(ioPorts := m.ioPorts[0x04 := 0])
    ensures Read(IncrementedDivider(m), DividerRegister) == 0
  {
    WriteIoRegister(m, DividerRegister, Read(m, DividerRegister) + 1);
  }

  /** Incrementing TIMA adds 1 to it modulo 256 and changes no other I/O register. */
  lemma CounterIncrements(m: Image)
    requires m.WellSized()
    ensures IncrementedCounter(m) == m.(ioPorts := m.ioPorts[0x05 := m.ioPorts[0x05] + 1])
    ensures Read(IncrementedCounter(m), TimerRegister) as int == (Read(m, TimerRegister) as int + 1) % 0x100
  {
    var t := Read(m, TimerRegister);
    WriteIoRegister(m, TimerRegister, t + 1);
    assert Read(IncrementedCounter(m), TimerRegister) == t + 1;
    ByteIncrement(t);
  }

  /** Adding 1 to a byte adds 1 modulo 256. */
  lemma ByteIncrement(t: bv8)
    ensures (t + 1) as int == (t as int + 1) % 0x100
  {
    if t == 0xFF {
      assert t + 1 == 0;
    } else {
      assert (t + 1) as int == t as int + 1;
    }
  }

  /**
    * A tick keeps a counter in 0..255 there, never changes TIMA, and touches the memory map only
    * when the counter reaches 256.
    */
  lemma TickBounds(divider: int, m: Image)
    requires m.WellSized()
    ensures 0 <= divider < 256 ==> 0 <= TimerTick(divider, m).0 < 256
    ensures Read(TimerTick(divider, m).1, TimerRegister) == Read(m, TimerRegister)
    ensures divider + 1 != 256 ==> TimerTick(divider, m).1 == m
    ensures divider + 1 == 256 ==> Read(TimerTick(divider, m).1, DividerRegister) == 0
  {
    DividerStaysZero(m);
  }

  /** From a counter of 0, the first 255 ticks only count. */
  lemma {:induction false} TicksBeforeWrap(m: Image, n: nat)
    requires m.WellSized() && n < 256
    ensures Ticks(0, m, n) == (n, m)
  {
    if n > 0 {
      TicksBeforeWrap(m, n - 1);
    }
  }

  /** From a counter of 0, the 256th tick increments DIV once and the counter is back at 0. */
  lemma {:induction false} EveryTwoHundredFiftySixthTick(m: Image)
    requires m.WellSized()
    ensures Ticks(0, m, 256) == (0, IncrementedDivider(m))
    ensures Read(Ticks(0, m, 256).1, DividerRegister) == 0
  {
    TicksBeforeWrap(m, 255);
    DividerStaysZero(m);
  }

  class Timer {
    var divider: int
    const mmu: Mmu

    ghost predicate Valid()
      reads this, mmu, mmu.Repr
    {
      mmu.Valid() && this !in mmu.Repr
    }

    constructor (mmu: Mmu)
      requires mmu.Valid()
      ensures Valid() && this.mmu == mmu && divider == 0
    {
      divider := 0;
      this.mmu := mmu;
    }

    method Tick()
      requires Valid()
      modifies this, mmu.Repr
      ensures Valid()
      ensures (divider, mmu.Contents()) == TimerTick(old(divider), old(mmu.Contents()))
    {
      divider := divider + 1;
      if divider == 256 {
        IncrementDivider();
        divider := 0;
      }
    }

    method IncrementDivider()
      requires Valid()
      modifies mmu.Repr
      ensures Valid()
      ensures mmu.Contents() == IncrementedDivider(old(mmu.Contents()))
    {
      var value := mmu.ReadAt(DividerRegister);
      mmu.WriteByte(DividerRegister, value + 1);
    }

    method IncrementCounter()
      requires Valid()
      modifies mmu.Repr
      ensures Valid()
      ensures mmu.Contents() == IncrementedCounter(old(mmu.Contents()))
    {
      var value := mmu.ReadAt(TimerRegister);
      mmu.WriteByte(TimerRegister, value + 1);
    }
  }
}
