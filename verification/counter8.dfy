/** Timer/Counter 0 and Timer/Counter 2, the 8-bit units. Apart from the
    waveform setter, the driver's functions for the two units
    (Timer/TIMER.c:228-399 and 416-586) are the same code with the unit number
    changed, and on the ATmega328P both units put every field at the same bit
    position (CS00 == CS20, COM0A0 == COM2A0, TOIE0 == TOIE2, OCIE0A ==
    OCIE2A, TOV0 == TOV2), so one set of functions over one register image
    models both. Timer 2's waveform setter is modelled here; Timer 0's edits
    Timer 1's registers and is modelled in TimerUnits. What the clock-select codes mean differs between
    the units above code 2; Ticks.Timer2DivisorMismatch states how. */
module Counter8 {
  import opened AvrIo
  import Ticks

  /** TCCRnA, TCCRnB, TCNTn, OCRnA, TIMSKn and TIFRn for n = 0 or 2. */
  datatype Regs = Regs(tccrA: bv8, tccrB: bv8, tcnt: bv8, ocrA: bv8, timsk: bv8, tifr: bv8)

  /** The clock-select field CSn2:0 of TCCRnB. */
  const CsMask: bv8 := Bit(CS02) | Bit(CS01) | Bit(CS00)
  /** WGMn1:0 in TCCRnA and WGMn2 in TCCRnB. */
  const WgmMaskA: bv8 := Bit(WGM21) | Bit(WGM20)
  const WgmMaskB: bv8 := Bit(WGM22)
  /** The compare-output field COMnA1:0 of TCCRnA. */
  const ComMask: bv8 := Bit(COM0A1) | Bit(COM0A0)
  /** The two interrupt sources the driver can enable on an 8-bit unit. */
  const SourceMask: bv8 := Bit(TOIE0) | Bit(OCIE0A)

  /** The waveform generation mode WGMn2:0 as numbered in the datasheet:
      0 is Normal and 2 is CTC with TOP = OCRnA. */
  function WaveformMode(r: Regs): bv8 {
    (((r.tccrB >> WGM22) & 1) << 2) | (r.tccrA & 3)
  }

  /** The clock-select code currently in TCCRnB (0 means stopped). */
  function ClockSelect(r: Regs): bv8 {
    r.tccrB & CsMask
  }

  /** setTimer0Prescaler / setTimer2Prescaler (Timer/TIMER.c:228-234,
      416-422): OR the 16-bit code into TCCRnB; its upper byte falls off. A
      code of 8 or more also reaches WGMn2 and the bits above it. */
  function SetPrescaler(r: Regs, prescaler: bv16): (r': Regs)
    ensures r' == r.(tccrB := r'.tccrB)
    ensures OrOf(r'.tccrB, r.tccrB, Low8(prescaler))
    ensures prescaler < 8 ==> ClockGains(r'.tccrB, r.tccrB, prescaler as bv8)
  {
    PrescalerWrite(r.tccrB, prescaler);
    r.(tccrB := CodeWrite(r.tccrB, prescaler))
  }

  /** The register value `b | (uint8_t)(prescaler << CS00)`. */
  function CodeWrite(b: bv8, prescaler: bv16): bv8 {
    b | Low8(prescaler << CS00)
  }

  /** The code write ORs the code's low byte in; a code below 8 lands in
      CSn2:0 alone. */
  lemma PrescalerWrite(b: bv8, prescaler: bv16)
    ensures OrOf(CodeWrite(b, prescaler), b, Low8(prescaler))
    ensures prescaler < 8 ==> ClockGains(CodeWrite(b, prescaler), b, prescaler as bv8)
  {
    PrescalerOr(b, prescaler);
    SmallCode(prescaler);
    if prescaler < 8 {
      ClockFieldOr(CodeWrite(b, prescaler), b, Low8(prescaler));
    }
  }

  /** `b'` is `b` with the clock-select field ORed with `code` and every
      other bit kept. */
  predicate ClockGains(b': bv8, b: bv8, code: bv8) {
    && b' & !CsMask == b & !CsMask
    && b' & CsMask == (b & CsMask) | code
  }

  lemma PrescalerOr(b: bv8, prescaler: bv16)
    ensures OrOf(b | Low8(prescaler << CS00), b, Low8(prescaler))
  {
  }

  /** A code below 8 is its own low byte and lies inside CSn2:0. */
  lemma SmallCode(prescaler: bv16)
    ensures prescaler < 8 ==> Low8(prescaler) == prescaler as bv8 && Low8(prescaler) & !CsMask == 0
  {
  }

  /** OR-ing a value inside CSn2:0 changes only the clock select, by OR. */
  lemma ClockFieldOr(v: bv8, b: bv8, t: bv8)
    requires OrOf(v, b, t)
    requires t & !CsMask == 0
    ensures ClockGains(v, b, t)
  {
  }

  /** The TCCR2A half of setTimer2Waveform (Timer/TIMER.c:431-453): mode 1
      clears WGM20 and sets WGM21, every other mode clears both. */
  function WaveformLow(a: bv8, waveform: bv8): (a': bv8)
    ensures a' & !WgmMaskA == a & !WgmMaskA
    ensures a' & 3 == (if waveform == 1 then 2 else 0)
  {
    if waveform == 0 then a & !(Bit(WGM21) | Bit(WGM20))
    else if waveform == 1 then (a & !Bit(WGM20)) | Bit(WGM21)
    else a & !(Bit(WGM21) | Bit(WGM20))
  }

  /** setTimer2Waveform (Timer/TIMER.c:429-454): mode 1 selects CTC, 0 and
      every other value select Normal. Every case clears WGM22 in TCCR2B. */
  function SetWaveform(r: Regs, waveform: bv8): (r': Regs)
    ensures r' == r.(tccrA := r'.tccrA, tccrB := r'.tccrB)
    ensures WaveformMode(r') == (if waveform == 1 then 2 else 0)
    ensures r'.tccrA & !WgmMaskA == r.tccrA & !WgmMaskA
    ensures r'.tccrB & !WgmMaskB == r.tccrB & !WgmMaskB
  {
    ClearBitFacts(r.tccrB, WGM22);
    r.(tccrA := WaveformLow(r.tccrA, waveform), tccrB := r.tccrB & !Bit(WGM22))
  }

  lemma ClearBitFacts(b: bv8, n: bv8)
    requires n < 8
    ensures (b & !Bit(n)) & !Bit(n) == b & !Bit(n)
    ensures ((b & !Bit(n)) >> n) & 1 == 0
  {
  }

  /** Out-of-range waveform requests fall back to Normal. */
  lemma UnknownWaveformIsNormal(r: Regs, waveform: bv8)
    requires waveform >= 2
    ensures SetWaveform(r, waveform) == SetWaveform(r, 0)
  {
  }

  /** setTimer0Compare / setTimer2Compare (Timer/TIMER.c:271-276, 461-466):
      OR `mode << COMnA0` into TCCRnA; only the COMnA field can gain bits. */
  function SetCompare(r: Regs, mode: bv8): (r': Regs)
    ensures r' == r.(tccrA := r'.tccrA)
    ensures Covers(r'.tccrA, r.tccrA)
    ensures r'.tccrA & !ComMask == r.tccrA & !ComMask
    ensures mode < 4 ==> r'.tccrA >> COM0A0 == (r.tccrA >> COM0A0) | mode
  {
    CompareFacts(r.tccrA, mode);
    r.(tccrA := r.tccrA | Low8((mode as bv16) << COM0A0))
  }

  lemma CompareFacts(a: bv8, mode: bv8)
    ensures Covers(a | Low8((mode as bv16) << COM0A0), a)
    ensures (a | Low8((mode as bv16) << COM0A0)) & !ComMask == a & !ComMask
    ensures mode < 4 ==> (a | Low8((mode as bv16) << COM0A0)) >> COM0A0 == (a >> COM0A0) | mode
  {
  }

  /** The value setTimer0Ticks / setTimer2Ticks compute: the 32-bit result cast
      to uint8_t. */
  function TicksValue(prescaler: bv16, ms: bv8): bv8
    requires prescaler != 0
  {
    Ticks.TruncatedTicks(prescaler, ms as nat, 8) as bv8
  }

  /** setTimer0Ticks / setTimer2Ticks (Timer/TIMER.c:279-295, 469-484): as for
      Timer 1, but the period is a uint8_t and OCRnA is eight bits wide. Code 0
      is a division by zero. OCRnA gains every bit of the period and keeps
      every bit it had. */
  function SetTicks(r: Regs, prescaler: bv16, ms: bv8): (r': Regs)
    requires prescaler != 0
    ensures r' == r.(ocrA := r'.ocrA)
    ensures OrOf(r'.ocrA, r.ocrA, TicksValue(prescaler, ms))
    ensures r'.ocrA == TicksValue(prescaler, ms) <==> r.ocrA & !TicksValue(prescaler, ms) == 0
  {
    r.(ocrA := OrWrite8(r.ocrA, TicksValue(prescaler, ms)))
  }

  /** `x |= t` on an 8-bit register: the register keeps its bits, gains the
      bits of `t` and no others, and ends equal to `t` exactly when it held no
      bit outside `t`. */
  function OrWrite8(x: bv8, t: bv8): (v: bv8)
    ensures OrOf(v, x, t)
    ensures v == t <==> x & !t == 0
  {
    OrWriteFacts8(x, t);
    OrWriteBounds8(x, t);
    x | t
  }

  lemma OrWriteFacts8(x: bv8, t: bv8)
    ensures x | t == t <==> x & !t == 0
  {
  }

  lemma OrWriteBounds8(x: bv8, t: bv8)
    ensures OrOf(x | t, x, t)
  {
  }

  /** The interrupt-mask bit setTimer0Interrupt / setTimer2Interrupt enable:
      overflow for Normal, compare-match A for CTC, nothing otherwise. */
  function SourceBit(mode: bv8): bv8 {
    if mode == 0 then Bit(TOIE0)
    else if mode == 1 then Bit(OCIE0A)
    else 0
  }

  /** The mask-register part of setTimer0Interrupt / setTimer2Interrupt
      (Timer/TIMER.c:299-318, 488-507). */
  function SetInterrupt(r: Regs, mode: bv8): (r': Regs)
    ensures r' == r.(timsk := r'.timsk)
    ensures r'.timsk & !SourceMask == r.timsk & !SourceMask
    ensures IsSet(r'.timsk, TOIE0) <==> IsSet(r.timsk, TOIE0) || mode == 0
    ensures IsSet(r'.timsk, OCIE0A) <==> IsSet(r.timsk, OCIE0A) || mode == 1
  {
    SourceBitFacts(r.timsk, mode);
    r.(timsk := r.timsk | SourceBit(mode))
  }

  lemma SourceBitFacts(m: bv8, mode: bv8)
    ensures (m | SourceBit(mode)) & !SourceMask == m & !SourceMask
    ensures IsSet(m | SourceBit(mode), TOIE0) <==> IsSet(m, TOIE0) || mode == 0
    ensures IsSet(m | SourceBit(mode), OCIE0A) <==> IsSet(m, OCIE0A) || mode == 1
  {
  }

  /** clearTimer0 / clearTimer2 (Timer/TIMER.c:345-349, 532-536). */
  function Clear(r: Regs): (r': Regs)
    ensures Value(r') == 0
    ensures r' == r.(tcnt := r'.tcnt)
  {
    r.(tcnt := 0)
  }

  /** resetTimer0 / resetTimer2 (Timer/TIMER.c:352-357, 539-544): writing one
      to TOVn clears it; the other flags keep their value. */
  function Reset(r: Regs): (r': Regs)
    ensures CheckOverflow(r') == 0
    ensures r'.tifr & !Bit(TOV0) == r.tifr & !Bit(TOV0)
    ensures r' == r.(tifr := r'.tifr)
  {
    ClearBitFacts(r.tifr, TOV0);
    r.(tifr := r.tifr & !Bit(TOV0))
  }

  /** valueTimer0 / valueTimer2 (Timer/TIMER.c:360-364, 547-551). */
  function Value(r: Regs): bv8 {
    r.tcnt
  }

  /** stopTimer0 / stopTimer2 (Timer/TIMER.c:367-373, 554-560). */
  function Stop(r: Regs): (r': Regs)
    ensures ClockSelect(r') == 0
    ensures r'.tccrB & !CsMask == r.tccrB & !CsMask
    ensures r' == r.(tccrB := r'.tccrB)
  {
    r.(tccrB := r.tccrB & !(Bit(CS02) | Bit(CS01) | Bit(CS00)))
  }

  /** checkTimer0Overflow / checkTimer2Overflow (Timer/TIMER.c:376-384,
      563-571): 1 when TOVn is set, else 0. */
  function CheckOverflow(r: Regs): (v: bv8)
    ensures v <= 1
    ensures v == 1 <==> (r.tifr >> TOV0) & 1 == 1
  {
    if r.tifr & Bit(TOV0) != 0 then 1 else 0
  }

  /** The prescaler and compare writes only set bits, so repeating them
      changes nothing. */
  lemma WritesIdempotent(r: Regs, prescaler: bv16, mode: bv8)
    ensures SetPrescaler(SetPrescaler(r, prescaler), prescaler) == SetPrescaler(r, prescaler)
    ensures SetCompare(SetCompare(r, mode), mode) == SetCompare(r, mode)
  {
  }

  /** Writing the same period twice is writing it once. */
  lemma TicksIdempotent(r: Regs, prescaler: bv16, ms: bv8)
    requires prescaler != 0
    ensures SetTicks(SetTicks(r, prescaler, ms), prescaler, ms) == SetTicks(r, prescaler, ms)
  {
  }

  /** OCRnA ends equal to the computed period when it was zero before. */
  lemma TicksFromZero(r: Regs, prescaler: bv16, ms: bv8)
    requires prescaler != 0 && r.ocrA == 0
    ensures SetTicks(r, prescaler, ms).ocrA == TicksValue(prescaler, ms)
  {
  }

  /** At 16 MHz with clk/1024 (code 5), 10 ms is 155 ticks, which fits the
      8-bit register. With clk/8 (code 2), 1 ms would need 1999 ticks and is
      silently truncated to 207. */
  lemma TicksExamples()
    ensures TicksValue(5, 10) == 155
    ensures TicksValue(2, 1) == 207
  {
    assert Ticks.Divisor(5) == 1024;
    assert Ticks.TruncatedTicks(5, 10, 8) == 155;
    assert Ticks.TruncatedTicks(2, 1, 8) == 207 by {
      Ticks.WorkedExamples();
    }
  }
}
