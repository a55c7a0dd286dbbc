/*
 * Register-field layer of the complex interface adapter (CIA) of the C64:
 * the 16-bit latch and counter registers of timers A and B with their byte
 * accessors, the single-bit accessors of the interrupt mask (IMR), the
 * interrupt control register (ICR) and the two timer control registers
 * (CRA, CRB), the bit layout of the 64-bit delay pipeline and the address
 * windows of the two CIA chips.
 *
 * Registers are bit-vectors of the width the chip has, so every C integer
 * promotion followed by a truncating store becomes plain bit-vector arithmetic.
 */
module CiaRegisters {

  /** Bit k (0 = least significant) of an 8-bit register is set. */
  predicate BitSet(x: bv8, k: nat)
    requires k < 8
  {
    ((x >> k) & 1) == 1
  }

  /** `after` is `before` with bit mask `b` cleared and nothing else changed. */
  predicate OnlyCleared(before: bv64, after: bv64, b: bv64)
  {
    (after & b) == 0 && (after | b) == (before | b)
  }

  /** And-ing with the complement of a mask clears that mask and nothing else. */
  lemma AndNotClearsOnly(d: bv64, b: bv64)
    ensures OnlyCleared(d, d & !b, b)
  {
  }

  /** Exactly one bit of a 64-bit word is set. */
  predicate SingleBit(x: bv64)
  {
    x != 0 && (x & (x - 1)) == 0
  }

  // ---------------------------------------------------------------------
  // Delay pipeline: one bit per scheduled action and stage. Stage k of an
  // action is due k cycles after stage 0.
  // ---------------------------------------------------------------------

  const CountA0: bv64 := 0x00000001
  const CountA1: bv64 := 0x00000002
  const CountA2: bv64 := 0x00000004
  const CountA3: bv64 := 0x00000008
  const CountB0: bv64 := 0x00000010
  const CountB1: bv64 := 0x00000020
  const CountB2: bv64 := 0x00000040
  const CountB3: bv64 := 0x00000080
  const LoadA0: bv64 := 0x00000100
  const LoadA1: bv64 := 0x00000200
  const LoadA2: bv64 := 0x00000400
  const LoadB0: bv64 := 0x00000800
  const LoadB1: bv64 := 0x00001000
  const LoadB2: bv64 := 0x00002000
  const PB6Low0: bv64 := 0x00004000
  const PB6Low1: bv64 := 0x00008000
  const PB7Low0: bv64 := 0x00010000
  const PB7Low1: bv64 := 0x00020000
  const Interrupt0: bv64 := 0x00040000
  const Interrupt1: bv64 := 0x00080000
  const OneShotA0: bv64 := 0x00100000
  const OneShotB0: bv64 := 0x00200000
  const ReadIcr0: bv64 := 0x00400000
  const ReadIcr1: bv64 := 0x00800000
  const ClearIcr0: bv64 := 0x01000000
  const ClearIcr1: bv64 := 0x02000000
  const ClearIcr2: bv64 := 0x04000000
  const SetIcr0: bv64 := 0x08000000
  const SetIcr1: bv64 := 0x10000000
  const TODInt0: bv64 := 0x20000000

  const Cnt0: bv64 := 0x0000100000000000
  const Cnt1: bv64 := 0x0000200000000000
  const Cnt2: bv64 := 0x0000400000000000
  const SerInt0: bv64 := 0x0000800000000000
  const SerInt1: bv64 := 0x0001000000000000
  const SerInt2: bv64 := 0x0002000000000000
  const SerLoad0: bv64 := 0x0004000000000000
  const SerLoad1: bv64 := 0x0008000000000000
  const SerClk0: bv64 := 0x0010000000000000
  const SerClk1: bv64 := 0x0020000000000000
  const SerClk2: bv64 := 0x0040000000000000
  const SerClk3: bv64 := 0x0080000000000000

  const SetCntFlip0: bv64 := 0x0000000400000000
  const SetCntFlip1: bv64 := 0x0000000800000000
  const SetCntFlip2: bv64 := 0x0000001000000000
  const SetCntFlip3: bv64 := 0x0000002000000000
  const SetCnt0: bv64 := 0x0000004000000000
  const SetCnt1: bv64 := 0x0000008000000000
  const SetCnt2: bv64 := 0x0000010000000000
  const SetCnt3: bv64 := 0x0000020000000000

  /** The union of the stage-0 bits of every action. */
  const Stage0Bits: bv64 :=
    CountA0 | CountB0 | LoadA0 | LoadB0 | PB6Low0 | PB7Low0 | Interrupt0 | OneShotA0 |
    OneShotB0 | ReadIcr0 | ClearIcr0 | SetIcr0 | TODInt0 | Cnt0 | SerInt0 | SerLoad0 |
    SerClk0 | SetCntFlip0 | SetCnt0

  /** Mask with every stage-0 bit cleared. */
  const DelayMask: bv64 := !Stage0Bits

  /**
   * Every named delay bit is a single bit, and listed by increasing value
   * they are strictly increasing, so no two names share a bit.
   */
  lemma DelayBitsDistinct()
    ensures SingleBit(CountA0) && SingleBit(CountA1) && SingleBit(CountA2) && SingleBit(CountA3)
    ensures SingleBit(CountB0) && SingleBit(CountB1) && SingleBit(CountB2) && SingleBit(CountB3)
    ensures SingleBit(LoadA0) && SingleBit(LoadA1) && SingleBit(LoadA2)
    ensures SingleBit(LoadB0) && SingleBit(LoadB1) && SingleBit(LoadB2)
    ensures SingleBit(PB6Low0) && SingleBit(PB6Low1) && SingleBit(PB7Low0) && SingleBit(PB7Low1)
    ensures SingleBit(Interrupt0) && SingleBit(Interrupt1)
    ensures SingleBit(OneShotA0) && SingleBit(OneShotB0)
    ensures SingleBit(ReadIcr0) && SingleBit(ReadIcr1)
    ensures SingleBit(ClearIcr0) && SingleBit(ClearIcr1) && SingleBit(ClearIcr2)
    ensures SingleBit(SetIcr0) && SingleBit(SetIcr1) && SingleBit(TODInt0)
    ensures SingleBit(Cnt0) && SingleBit(Cnt1) && SingleBit(Cnt2)
    ensures SingleBit(SerInt0) && SingleBit(SerInt1) && SingleBit(SerInt2)
    ensures SingleBit(SerLoad0) && SingleBit(SerLoad1)
    ensures SingleBit(SerClk0) && SingleBit(SerClk1) && SingleBit(SerClk2) && SingleBit(SerClk3)
    ensures SingleBit(SetCntFlip0) && SingleBit(SetCntFlip1) && SingleBit(SetCntFlip2) && SingleBit(SetCntFlip3)
    ensures SingleBit(SetCnt0) && SingleBit(SetCnt1) && SingleBit(SetCnt2) && SingleBit(SetCnt3)
    ensures CountA0 < CountA1 < CountA2 < CountA3 < CountB0 < CountB1 < CountB2 < CountB3
      < LoadA0 < LoadA1 < LoadA2 < LoadB0 < LoadB1 < LoadB2 < PB6Low0 < PB6Low1 < PB7Low0 < PB7Low1
      < Interrupt0 < Interrupt1 < OneShotA0 < OneShotB0 < ReadIcr0 < ReadIcr1
      < ClearIcr0 < ClearIcr1 < ClearIcr2 < SetIcr0 < SetIcr1 < TODInt0
      < SetCntFlip0 < SetCntFlip1 < SetCntFlip2 < SetCntFlip3 < SetCnt0 < SetCnt1 < SetCnt2 < SetCnt3
      < Cnt0 < Cnt1 < Cnt2 < SerInt0 < SerInt1 < SerInt2 < SerLoad0 < SerLoad1
      < SerClk0 < SerClk1 < SerClk2 < SerClk3
  {
  }

  /** Stage k+1 of every multi-stage action is its stage k shifted left by one. */
  lemma DelayStagesShift()
    ensures CountA1 == CountA0 << 1 && CountA2 == CountA1 << 1 && CountA3 == CountA2 << 1
    ensures CountB1 == CountB0 << 1 && CountB2 == CountB1 << 1 && CountB3 == CountB2 << 1
    ensures LoadA1 == LoadA0 << 1 && LoadA2 == LoadA1 << 1
    ensures LoadB1 == LoadB0 << 1 && LoadB2 == LoadB1 << 1
    ensures PB6Low1 == PB6Low0 << 1 && PB7Low1 == PB7Low0 << 1
    ensures Interrupt1 == Interrupt0 << 1 && ReadIcr1 == ReadIcr0 << 1
    ensures ClearIcr1 == ClearIcr0 << 1 && ClearIcr2 == ClearIcr1 << 1
    ensures SetIcr1 == SetIcr0 << 1
    ensures Cnt1 == Cnt0 << 1 && Cnt2 == Cnt1 << 1
    ensures SerInt1 == SerInt0 << 1 && SerInt2 == SerInt1 << 1
    ensures SerLoad1 == SerLoad0 << 1
    ensures SerClk1 == SerClk0 << 1 && SerClk2 == SerClk1 << 1 && SerClk3 == SerClk2 << 1
    ensures SetCntFlip1 == SetCntFlip0 << 1 && SetCntFlip2 == SetCntFlip1 << 1 && SetCntFlip3 == SetCntFlip2 << 1
    ensures SetCnt1 == SetCnt0 << 1 && SetCnt2 == SetCnt1 << 1 && SetCnt3 == SetCnt2 << 1
  {
  }

  /**
   * DelayMask clears exactly the stage-0 bits: every stage-0 bit is cleared,
   * every later stage survives, and a bit outside the stage-0 bits is kept.
   * Consequently, for the sixteen actions whose next higher bit is the
   * first stage of another action, shifting the last stage left by one and
   * masking leaves nothing. The bits above TODInt0, SetCnt3 and SerClk3 are
   * not named and DelayMask keeps them.
   */
  lemma DelayMaskClearsStageZero()
    ensures (DelayMask & Stage0Bits) == 0 && (DelayMask | Stage0Bits) == 0xFFFF_FFFF_FFFF_FFFF
    ensures (DelayMask & CountA0) == 0 && (DelayMask & CountB0) == 0
    ensures (DelayMask & LoadA0) == 0 && (DelayMask & LoadB0) == 0
    ensures (DelayMask & PB6Low0) == 0 && (DelayMask & PB7Low0) == 0
    ensures (DelayMask & Interrupt0) == 0 && (DelayMask & OneShotA0) == 0 && (DelayMask & OneShotB0) == 0
    ensures (DelayMask & ReadIcr0) == 0 && (DelayMask & ClearIcr0) == 0 && (DelayMask & SetIcr0) == 0
    ensures (DelayMask & TODInt0) == 0 && (DelayMask & Cnt0) == 0 && (DelayMask & SerInt0) == 0
    ensures (DelayMask & SerLoad0) == 0 && (DelayMask & SerClk0) == 0
    ensures (DelayMask & SetCntFlip0) == 0 && (DelayMask & SetCnt0) == 0
    ensures (DelayMask & CountA1) == CountA1 && (DelayMask & CountA2) == CountA2 && (DelayMask & CountA3) == CountA3
    ensures (DelayMask & CountB1) == CountB1 && (DelayMask & CountB2) == CountB2 && (DelayMask & CountB3) == CountB3
    ensures (DelayMask & LoadA1) == LoadA1 && (DelayMask & LoadA2) == LoadA2
    ensures (DelayMask & LoadB1) == LoadB1 && (DelayMask & LoadB2) == LoadB2
    ensures (DelayMask & PB6Low1) == PB6Low1 && (DelayMask & PB7Low1) == PB7Low1
    ensures (DelayMask & Interrupt1) == Interrupt1 && (DelayMask & ReadIcr1) == ReadIcr1
    ensures (DelayMask & ClearIcr1) == ClearIcr1 && (DelayMask & ClearIcr2) == ClearIcr2
    ensures (DelayMask & SetIcr1) == SetIcr1
    ensures (DelayMask & Cnt1) == Cnt1 && (DelayMask & Cnt2) == Cnt2
    ensures (DelayMask & SerInt1) == SerInt1 && (DelayMask & SerInt2) == SerInt2
    ensures (DelayMask & SerLoad1) == SerLoad1
    ensures (DelayMask & SerClk1) == SerClk1 && (DelayMask & SerClk2) == SerClk2 && (DelayMask & SerClk3) == SerClk3
    ensures (DelayMask & SetCntFlip1) == SetCntFlip1 && (DelayMask & SetCntFlip2) == SetCntFlip2
    ensures (DelayMask & SetCntFlip3) == SetCntFlip3
    ensures (DelayMask & SetCnt1) == SetCnt1 && (DelayMask & SetCnt2) == SetCnt2 && (DelayMask & SetCnt3) == SetCnt3
    ensures ((CountA3 << 1) & DelayMask) == 0 && ((LoadA2 << 1) & DelayMask) == 0
    ensures ((PB6Low1 << 1) & DelayMask) == 0 && ((PB7Low1 << 1) & DelayMask) == 0
    ensures ((Interrupt1 << 1) & DelayMask) == 0 && ((OneShotA0 << 1) & DelayMask) == 0
    ensures ((OneShotB0 << 1) & DelayMask) == 0 && ((ReadIcr1 << 1) & DelayMask) == 0
    ensures ((ClearIcr2 << 1) & DelayMask) == 0 && ((SetIcr1 << 1) & DelayMask) == 0
    ensures ((SetCntFlip3 << 1) & DelayMask) == 0 && ((Cnt2 << 1) & DelayMask) == 0
    ensures ((SerInt2 << 1) & DelayMask) == 0 && ((SerLoad1 << 1) & DelayMask) == 0
    ensures ((CountB3 << 1) & DelayMask) == 0 && ((LoadB2 << 1) & DelayMask) == 0
    ensures ((TODInt0 << 1) & DelayMask) == TODInt0 << 1
    ensures ((SetCnt3 << 1) & DelayMask) == SetCnt3 << 1
    ensures ((SerClk3 << 1) & DelayMask) == SerClk3 << 1
  {
  }

  // ---------------------------------------------------------------------
  // Address windows
  // ---------------------------------------------------------------------

  const CiaStartAddr: bv16 := 0xDC00
  const CiaEndAddr: bv16 := 0xDDFF
  const Cia1StartAddr: bv16 := 0xDC00
  const Cia1EndAddr: bv16 := 0xDCFF
  const Cia2StartAddr: bv16 := 0xDD00
  const Cia2EndAddr: bv16 := 0xDDFF

  /** CIA 1 occupies exactly the 256-byte page $DC. */
  function IsCia1Addr(addr: bv16): (r: bool)
    ensures r <==> (addr >> 8) == 0xDC
  {
    Cia1StartAddr <= addr && addr <= Cia1EndAddr
  }

  /** CIA 2 occupies exactly the 256-byte page $DD, so no address belongs to both chips. */
  function IsCia2Addr(addr: bv16): (r: bool)
    ensures r <==> (addr >> 8) == 0xDD
    ensures r ==> !IsCia1Addr(addr)
  {
    Cia2StartAddr <= addr && addr <= Cia2EndAddr
  }

  /** The CIA I/O space is the union of the windows of the two chips. */
  function IsCiaAddr(addr: bv16): (r: bool)
    ensures r <==> IsCia1Addr(addr) || IsCia2Addr(addr)
  {
    CiaStartAddr <= addr && addr <= CiaEndAddr
  }

  // ---------------------------------------------------------------------
  // The register fields of one CIA chip
  // ---------------------------------------------------------------------

  class Cia {
    var counterA: bv16
    var latchA: bv16
    var counterB: bv16
    var latchB: bv16
    /** Scheduled actions; see the named bits above. */
    var delay: bv64
    var cra: bv8
    var crb: bv8
    var icr: bv8
    var imr: bv8

    // --- Interrupt control -------------------------------------------------

    /** Timer A may trigger interrupts: IMR bit 0. */
    function IsInterruptEnabledA(): (r: bool)
      reads this
      ensures r == BitSet(imr, 0)
    {
      (imr & 0x01) != 0
    }

    method SetInterruptEnabledA(b: bool)
      modifies this`imr
      ensures imr == (if b then old(imr) | 0x01 else old(imr) & 0xFE)
      ensures IsInterruptEnabledA() == b
      ensures (imr & 0xFE) == (old(imr) & 0xFE)
    {
      if b { imr := imr | 0x01; } else { imr := imr & (0xFF - 0x01); }
    }

    method ToggleInterruptEnableFlagA()
      modifies this`imr
      ensures imr == old(imr) ^ 0x01
      ensures IsInterruptEnabledA() == !old(IsInterruptEnabledA())
    {
      SetInterruptEnabledA(!IsInterruptEnabledA());
    }

    /** Timer A has reached zero: ICR bit 0. */
    function IsSignalPendingA(): (r: bool)
      reads this
      ensures r == BitSet(icr, 0)
    {
      (icr & 0x01) != 0
    }

    method SetSignalPendingA(b: bool)
      modifies this`icr
      ensures icr == (if b then old(icr) | 0x01 else old(icr) & 0xFE)
      ensures IsSignalPendingA() == b
      ensures (icr & 0xFE) == (old(icr) & 0xFE)
    {
      if b { icr := icr | 0x01; } else { icr := icr & (0xFF - 0x01); }
    }

    method TogglePendingSignalFlagA()
      modifies this`icr
      ensures icr == old(icr) ^ 0x01
      ensures IsSignalPendingA() == !old(IsSignalPendingA())
    {
      SetSignalPendingA(!IsSignalPendingA());
    }

    /** Timer B may trigger interrupts: IMR bit 1. */
    function IsInterruptEnabledB(): (r: bool)
      reads this
      ensures r == BitSet(imr, 1)
    {
      (imr & 0x02) != 0
    }

    method SetInterruptEnabledB(b: bool)
      modifies this`imr
      ensures imr == (if b then old(imr) | 0x02 else old(imr) & 0xFD)
      ensures IsInterruptEnabledB() == b
      ensures (imr & 0xFD) == (old(imr) & 0xFD)
    {
      if b { imr := imr | 0x02; } else { imr := imr & (0xFF - 0x02); }
    }

    method ToggleInterruptEnableFlagB()
      modifies this`imr
      ensures imr == old(imr) ^ 0x02
      ensures IsInterruptEnabledB() == !old(IsInterruptEnabledB())
    {
      SetInterruptEnabledB(!IsInterruptEnabledB());
    }

    /** Timer B has reached zero: ICR bit 1. */
    function IsSignalPendingB(): (r: bool)
      reads this
      ensures r == BitSet(icr, 1)
    {
      (icr & 0x02) != 0
    }

    method SetSignalPendingB(b: bool)
      modifies this`icr
      ensures icr == (if b then old(icr) | 0x02 else old(icr) & 0xFD)
      ensures IsSignalPendingB() == b
      ensures (icr & 0xFD) == (old(icr) & 0xFD)
    {
      if b { icr := icr | 0x02; } else { icr := icr & (0xFF - 0x02); }
    }

    method TogglePendingSignalFlagB()
      modifies this`icr
      ensures icr == old(icr) ^ 0x02
      ensures IsSignalPendingB() == !old(IsSignalPendingB())
    {
      SetSignalPendingB(!IsSignalPendingB());
    }

    /** The time-of-day alarm flag is kept in ICR bit 2 (not in IMR). */
    function IsInterruptEnabledTOD(): (r: bool)
      reads this
      ensures r == BitSet(icr, 2)
    {
      (icr & 0x04) != 0
    }

    /** Sets or clears ICR bit 2; IMR is left alone. */
    method SetInterruptEnabledTOD(b: bool)
      modifies this`icr
      ensures icr == (if b then old(icr) | 0x04 else old(icr) & 0xFB)
      ensures IsInterruptEnabledTOD() == b
      ensures (icr & 0xFB) == (old(icr) & 0xFB)
    {
      if b { icr := icr | 0x04; } else { icr := icr & (0xFF - 0x04); }
    }

    /** The FLAG-pin flag is kept in ICR bit 4 (not in IMR). */
    function IsInterruptEnabledFlg(): (r: bool)
      reads this
      ensures r == BitSet(icr, 4)
    {
      (icr & 0x10) != 0
    }

    /** Sets or clears ICR bit 4; IMR is left alone. */
    method SetInterruptEnabledFlg(b: bool)
      modifies this`icr
      ensures icr == (if b then old(icr) | 0x10 else old(icr) & 0xEF)
      ensures IsInterruptEnabledFlg() == b
      ensures (icr & 0xEF) == (old(icr) & 0xEF)
    {
      if b { icr := icr | 0x10; } else { icr := icr & (0xFF - 0x10); }
    }

    // --- Timer A: latch and counter ---------------------------------------

    /** The latch is its high byte followed by its low byte. */
    function GetLatchA(): (r: bv16)
      reads this
      ensures r == ((GetLatchAHi() as bv16) << 8) | (GetLatchALo() as bv16)
    {
      latchA
    }

    method SetLatchA(value: bv16)
      modifies this`latchA
      ensures latchA == value
      ensures GetLatchALo() == (value & 0xFF) as bv8 && GetLatchAHi() == (value >> 8) as bv8
    {
      latchA := value;
    }

    /** The low byte: together with the upper half it makes up the latch. */
    function GetLatchALo(): (r: bv8)
      reads this
      ensures (latchA & 0xFF00) | (r as bv16) == latchA
    {
      (latchA & 0xFF) as bv8
    }

    method SetLatchALo(value: bv8)
      modifies this`latchA
      ensures latchA == (old(latchA) & 0xFF00) | (value as bv16)
      ensures GetLatchALo() == value && GetLatchAHi() == old(GetLatchAHi())
    {
      latchA := (latchA & 0xFF00) | (value as bv16);
    }

    /** The high byte: together with the lower half it makes up the latch. */
    function GetLatchAHi(): (r: bv8)
      reads this
      ensures ((r as bv16) << 8) | (latchA & 0x00FF) == latchA
    {
      (latchA >> 8) as bv8
    }

    method SetLatchAHi(value: bv8)
      modifies this`latchA
      ensures latchA == ((value as bv16) << 8) | (old(latchA) & 0xFF)
      ensures GetLatchAHi() == value && GetLatchALo() == old(GetLatchALo())
    {
      latchA := ((value as bv16) << 8) | (latchA & 0xFF);
    }

    /** The counter is its high byte followed by its low byte. */
    function GetCounterA(): (r: bv16)
      reads this
      ensures r == ((GetCounterAHi() as bv16) << 8) | (GetCounterALo() as bv16)
    {
      counterA
    }

    method SetCounterA(value: bv16)
      modifies this`counterA
      ensures counterA == value
      ensures GetCounterALo() == (value & 0xFF) as bv8 && GetCounterAHi() == (value >> 8) as bv8
    {
      counterA := value;
    }

    function GetCounterALo(): (r: bv8)
      reads this
      ensures (counterA & 0xFF00) | (r as bv16) == counterA
    {
      (counterA & 0xFF) as bv8
    }

    method SetCounterALo(value: bv8)
      modifies this`counterA
      ensures counterA == (old(counterA) & 0xFF00) | (value as bv16)
      ensures GetCounterALo() == value && GetCounterAHi() == old(GetCounterAHi())
    {
      counterA := (counterA & 0xFF00) | (value as bv16);
    }

    function GetCounterAHi(): (r: bv8)
      reads this
      ensures ((r as bv16) << 8) | (counterA & 0x00FF) == counterA
    {
      (counterA >> 8) as bv8
    }

    method SetCounterAHi(value: bv8)
      modifies this`counterA
      ensures counterA == ((value as bv16) << 8) | (old(counterA) & 0xFF)
      ensures GetCounterAHi() == value && GetCounterALo() == old(GetCounterALo())
    {
      counterA := ((value as bv16) << 8) | (counterA & 0xFF);
    }

    /**
     * Copies the latch into the counter and cancels the pending CountA2
     * stage, so the timer waits one cycle before it counts again. (In the
     * source CountA2 is an int, so its complement is sign-extended to all
     * 64 bits and no other bit of the pipeline is touched.)
     */
    method ReloadTimerA()
      modifies this`counterA, this`delay
      ensures counterA == latchA
      ensures delay == old(delay) & !CountA2
      ensures OnlyCleared(old(delay), delay, CountA2)
    {
      var cleared := delay & !CountA2;
      AndNotClearsOnly(delay, CountA2);
      counterA := latchA;
      delay := cleared;
    }

    // --- Timer A: control register ------------------------------------------

    /** The timer runs: CRA bit 0. */
    function IsStartedA(): (r: bool)
      reads this
      ensures r == BitSet(cra, 0)
    {
      (cra & 0x01) != 0
    }

    method SetStartedA(b: bool)
      modifies this`cra
      ensures cra == (if b then old(cra) | 0x01 else old(cra) & 0xFE)
      ensures IsStartedA() == b
      ensures (cra & 0xFE) == (old(cra) & 0xFE)
    {
      if b { cra := cra | 0x01; } else { cra := cra & 0xFE; }
    }

    method ToggleStartFlagA()
      modifies this`cra
      ensures cra == old(cra) ^ 0x01
      ensures IsStartedA() == !old(IsStartedA())
    {
      SetStartedA(!IsStartedA());
    }

    /** The force-load strobe: CRA bit 4. */
    function ForceLoadStrobeA(): (r: bool)
      reads this
      ensures r == BitSet(cra, 4)
    {
      (cra & 0x10) != 0
    }

    /** Underflows are shown on port B bit 6: CRA bit 1. */
    function WillIndicateUnderflowA(): (r: bool)
      reads this
      ensures r == BitSet(cra, 1)
    {
      (cra & 0x02) != 0
    }

    /** Underflows are shown as a single pulse when CRA bit 2 is clear (toggle when set). */
    function WillIndicateUnderflowAsPulseA(): (r: bool)
      reads this
      ensures r == !BitSet(cra, 2)
    {
      !((cra & 0x04) != 0)
    }

    method SetIndicateUnderflowA(b: bool)
      modifies this`cra
      ensures cra == (if b then old(cra) | 0x02 else old(cra) & 0xFD)
      ensures WillIndicateUnderflowA() == b
      ensures (cra & 0xFD) == (old(cra) & 0xFD)
    {
      if b { cra := cra | 0x02; } else { cra := cra & (0xFF - 0x02); }
    }

    method ToggleUnderflowFlagA()
      modifies this`cra
      ensures cra == old(cra) ^ 0x02
      ensures WillIndicateUnderflowA() == !old(WillIndicateUnderflowA())
    {
      SetIndicateUnderflowA(!WillIndicateUnderflowA());
    }

    /** One-shot mode: CRA bit 3. */
    function IsOneShotA(): (r: bool)
      reads this
      ensures r == BitSet(cra, 3)
    {
      (cra & 0x08) != 0
    }

    method SetOneShotA(b: bool)
      modifies this`cra
      ensures cra == (if b then old(cra) | 0x08 else old(cra) & 0xF7)
      ensures IsOneShotA() == b
      ensures (cra & 0xF7) == (old(cra) & 0xF7)
    {
      if b { cra := cra | 0x08; } else { cra := cra & (0xFF - 0x08); }
    }

    method ToggleOneShotFlagA()
      modifies this`cra
      ensures cra == old(cra) ^ 0x08
      ensures IsOneShotA() == !old(IsOneShotA())
    {
      SetOneShotA(!IsOneShotA());
    }

    /** The timer counts clock ticks when CRA bit 5 is clear (CNT edges when set). */
    function IsCountingClockTicksA(): (r: bool)
      reads this
      ensures r == !BitSet(cra, 5)
    {
      (cra & 0x20) == 0x00
    }

    /**
     * As written: the register value is returned through a bool, so the
     * caller only learns whether any bit of CRA is set.
     */
    function GetControlRegA(): (r: bool)
      reads this
      ensures !r <==> (forall k | 0 <= k < 8 :: !BitSet(cra, k))
    {
      assert cra != 0 ==>
        BitSet(cra, 0) || BitSet(cra, 1) || BitSet(cra, 2) || BitSet(cra, 3) ||
        BitSet(cra, 4) || BitSet(cra, 5) || BitSet(cra, 6) || BitSet(cra, 7);
      cra != 0
    }

    /** Corrected getter: the control register value, consistent with every decoder. */
    function ControlRegA(): (r: bv8)
      reads this
      ensures BitSet(r, 0) == IsStartedA() && BitSet(r, 1) == WillIndicateUnderflowA()
      ensures BitSet(r, 2) == !WillIndicateUnderflowAsPulseA() && BitSet(r, 3) == IsOneShotA()
      ensures BitSet(r, 4) == ForceLoadStrobeA() && BitSet(r, 5) == !IsCountingClockTicksA()
      ensures (r != 0) == GetControlRegA()
    {
      cra
    }

    method SetControlRegA(value: bv8)
      modifies this`cra
      ensures cra == value && ControlRegA() == value
    {
      cra := value;
    }

    // --- Timer B: latch and counter ---------------------------------------

    function GetLatchB(): (r: bv16)
      reads this
      ensures r == ((GetLatchBHi() as bv16) << 8) | (GetLatchBLo() as bv16)
    {
      latchB
    }

    method SetLatchB(value: bv16)
      modifies this`latchB
      ensures latchB == value
      ensures GetLatchBLo() == (value & 0xFF) as bv8 && GetLatchBHi() == (value >> 8) as bv8
    {
      latchB := value;
    }

    function GetLatchBLo(): (r: bv8)
      reads this
      ensures (latchB & 0xFF00) | (r as bv16) == latchB
    {
      (latchB & 0xFF) as bv8
    }

    method SetLatchBLo(value: bv8)
      modifies this`latchB
      ensures latchB == (old(latchB) & 0xFF00) | (value as bv16)
      ensures GetLatchBLo() == value && GetLatchBHi() == old(GetLatchBHi())
    {
      latchB := (latchB & 0xFF00) | (value as bv16);
    }

    function GetLatchBHi(): (r: bv8)
      reads this
      ensures ((r as bv16) << 8) | (latchB & 0x00FF) == latchB
    {
      (latchB >> 8) as bv8
    }

    method SetLatchBHi(value: bv8)
      modifies this`latchB
      ensures latchB == ((value as bv16) << 8) | (old(latchB) & 0xFF)
      ensures GetLatchBHi() == value && GetLatchBLo() == old(GetLatchBLo())
    {
      latchB := ((value as bv16) << 8) | (latchB & 0xFF);
    }

    function GetCounterB(): (r: bv16)
      reads this
      ensures r == ((GetCounterBHi() as bv16) << 8) | (GetCounterBLo() as bv16)
    {
      counterB
    }

    method SetCounterB(value: bv16)
      modifies this`counterB
      ensures counterB == value
      ensures GetCounterBLo() == (value & 0xFF) as bv8 && GetCounterBHi() == (value >> 8) as bv8
    {
      counterB := value;
    }

    function GetCounterBLo(): (r: bv8)
      reads this
      ensures (counterB & 0xFF00) | (r as bv16) == counterB
    {
      (counterB & 0xFF) as bv8
    }

    method SetCounterBLo(value: bv8)
      modifies this`counterB
      ensures counterB == (old(counterB) & 0xFF00) | (value as bv16)
      ensures GetCounterBLo() == value && GetCounterBHi() == old(GetCounterBHi())
    {
      counterB := (counterB & 0xFF00) | (value as bv16);
    }

    function GetCounterBHi(): (r: bv8)
      reads this
      ensures ((r as bv16) << 8) | (counterB & 0x00FF) == counterB
    {
      (counterB >> 8) as bv8
    }

    method SetCounterBHi(value: bv8)
      modifies this`counterB
      ensures counterB == ((value as bv16) << 8) | (old(counterB) & 0xFF)
      ensures GetCounterBHi() == value && GetCounterBLo() == old(GetCounterBLo())
    {
      counterB := ((value as bv16) << 8) | (counterB & 0xFF);
    }

    /** Copies the latch into the counter and cancels the pending CountB2 stage only. */
    method ReloadTimerB()
      modifies this`counterB, this`delay
      ensures counterB == latchB
      ensures delay == old(delay) & !CountB2
      ensures OnlyCleared(old(delay), delay, CountB2)
    {
      var cleared := delay & !CountB2;
      AndNotClearsOnly(delay, CountB2);
      counterB := latchB;
      delay := cleared;
    }

    // --- Timer B: control register ------------------------------------------

    function IsStartedB(): (r: bool)
      reads this
      ensures r == BitSet(crb, 0)
    {
      (crb & 0x01) != 0
    }

    method SetStartedB(b: bool)
      modifies this`crb
      ensures crb == (if b then old(crb) | 0x01 else old(crb) & 0xFE)
      ensures IsStartedB() == b
      ensures (crb & 0xFE) == (old(crb) & 0xFE)
    {
      if b { crb := crb | 0x01; } else { crb := crb & 0xFE; }
    }

    method ToggleStartFlagB()
      modifies this`crb
      ensures crb == old(crb) ^ 0x01
      ensures IsStartedB() == !old(IsStartedB())
    {
      SetStartedB(!IsStartedB());
    }

    function ForceLoadStrobeB(): (r: bool)
      reads this
      ensures r == BitSet(crb, 4)
    {
      (crb & 0x10) != 0
    }

    /** Underflows are shown on port B bit 7: CRB bit 1. */
    function WillIndicateUnderflowB(): (r: bool)
      reads this
      ensures r == BitSet(crb, 1)
    {
      (crb & 0x02) != 0
    }

    function WillIndicateUnderflowAsPulseB(): (r: bool)
      reads this
      ensures r == !BitSet(crb, 2)
    {
      !((crb & 0x04) != 0)
    }

    method SetIndicateUnderflowB(b: bool)
      modifies this`crb
      ensures crb == (if b then old(crb) | 0x02 else old(crb) & 0xFD)
      ensures WillIndicateUnderflowB() == b
      ensures (crb & 0xFD) == (old(crb) & 0xFD)
    {
      if b { crb := crb | 0x02; } else { crb := crb & (0xFF - 0x02); }
    }

    method ToggleUnderflowFlagB()
      modifies this`crb
      ensures crb == old(crb) ^ 0x02
      ensures WillIndicateUnderflowB() == !old(WillIndicateUnderflowB())
    {
      SetIndicateUnderflowB(!WillIndicateUnderflowB());
    }

    function IsOneShotB(): (r: bool)
      reads this
      ensures r == BitSet(crb, 3)
    {
      (crb & 0x08) != 0
    }

    method SetOneShotB(b: bool)
      modifies this`crb
      ensures crb == (if b then old(crb) | 0x08 else old(crb) & 0xF7)
      ensures IsOneShotB() == b
      ensures (crb & 0xF7) == (old(crb) & 0xF7)
    {
      if b { crb := crb | 0x08; } else { crb := crb & (0xFF - 0x08); }
    }

    method ToggleOneShotFlagB()
      modifies this`crb
      ensures crb == old(crb) ^ 0x08
      ensures IsOneShotB() == !old(IsOneShotB())
    {
      SetOneShotB(!IsOneShotB());
    }

    function IsCountingClockTicksB(): (r: bool)
      reads this
      ensures r == !BitSet(crb, 5)
    {
      (crb & 0x20) == 0x00
    }

    /** As written: only whether any bit of CRB is set. */
    function GetControlRegB(): (r: bool)
      reads this
      ensures !r <==> (forall k | 0 <= k < 8 :: !BitSet(crb, k))
    {
      assert crb != 0 ==>
        BitSet(crb, 0) || BitSet(crb, 1) || BitSet(crb, 2) || BitSet(crb, 3) ||
        BitSet(crb, 4) || BitSet(crb, 5) || BitSet(crb, 6) || BitSet(crb, 7);
      crb != 0
    }

    /** Corrected getter: the control register value, consistent with every decoder. */
    function ControlRegB(): (r: bv8)
      reads this
      ensures BitSet(r, 0) == IsStartedB() && BitSet(r, 1) == WillIndicateUnderflowB()
      ensures BitSet(r, 2) == !WillIndicateUnderflowAsPulseB() && BitSet(r, 3) == IsOneShotB()
      ensures BitSet(r, 4) == ForceLoadStrobeB() && BitSet(r, 5) == !IsCountingClockTicksB()
      ensures (r != 0) == GetControlRegB()
    {
      crb
    }

    method SetControlRegB(value: bv8)
      modifies this`crb
      ensures crb == value && ControlRegB() == value
    {
      crb := value;
    }
  }

  /**
   * The as-written getter cannot give back what SetControlRegA stored: two
   * different register values read back alike.
   */
  lemma GetControlRegALosesValue(c1: Cia, c2: Cia)
    requires c1.cra == 0x01 && c2.cra == 0x11
    ensures c1.GetControlRegA() == c2.GetControlRegA()
    ensures c1.ControlRegA() != c2.ControlRegA()
  {
  }

  /** Same for timer B. */
  lemma GetControlRegBLosesValue(c1: Cia, c2: Cia)
    requires c1.crb == 0x01 && c2.crb == 0x11
    ensures c1.GetControlRegB() == c2.GetControlRegB()
    ensures c1.ControlRegB() != c2.ControlRegB()
  {
  }

  /**
   * A composed property of three accessors: writing the high and then the
   * low latch byte and reloading starts timer A from the 16-bit value the
   * bytes make up, cancels the pending CountA2 stage and leaves every other
   * register alone.
   */
  method LoadTimerA(c: Cia, hi: bv8, lo: bv8)
    modifies c
    ensures c.GetLatchA() == ((hi as bv16) << 8) | (lo as bv16)
    ensures c.GetCounterA() == c.GetLatchA()
    ensures c.imr == old(c.imr) && c.cra == old(c.cra)
    ensures c.latchB == old(c.latchB) && c.counterB == old(c.counterB) && c.crb == old(c.crb)
    ensures c.icr == old(c.icr) && c.delay == old(c.delay) & !CountA2
  {
    c.SetLatchAHi(hi);
    c.SetLatchALo(lo);
    c.ReloadTimerA();
  }
}
