/** Timer/Counter 1, the 16-bit unit (Timer/TIMER.c:23-191): its register
    image and the setters and runtime operations the driver applies to it.
    Every setter is a pure function from the old image to the new one. */
module Counter16 {
  import opened AvrIo
  import Ticks

  /** TCCR1A, TCCR1B, TCNT1, OCR1A, TIMSK1 and TIFR1. */
  datatype Regs = Regs(tccrA: bv8, tccrB: bv8, tcnt: bv16, ocrA: bv16, timsk: bv8, tifr: bv8)

  /** The clock-select field CS12:0 of TCCR1B. */
  const CsMask: bv8 := Bit(CS12) | Bit(CS11) | Bit(CS10)
  /** WGM11:10 in TCCR1A and WGM13:12 in TCCR1B. */
  const WgmMaskA: bv8 := Bit(WGM11) | Bit(WGM10)
  const WgmMaskB: bv8 := Bit(WGM13) | Bit(WGM12)
  /** The compare-output field COM1A1:0 of TCCR1A. */
  const ComMask: bv8 := Bit(COM1A1) | Bit(COM1A0)
  /** The three interrupt sources the driver can enable. */
  const SourceMask: bv8 := Bit(TOIE1) | Bit(OCIE1A) | Bit(ICIE1)

  /** The waveform generation mode WGM13:0 as numbered in the datasheet:
      0 is Normal, 4 is CTC with TOP = OCR1A, 12 is CTC with TOP = ICR1. */
  function WaveformMode(r: Regs): bv8 {
    (((r.tccrB >> WGM12) & 3) << 2) | (r.tccrA & 3)
  }

  /** The clock-select code currently in TCCR1B (0 means stopped). */
  function ClockSelect(r: Regs): bv8 {
    r.tccrB & CsMask
  }

  /** setTimer1Prescaler (Timer/TIMER.c:23-29): OR the 16-bit code, shifted to
      CS10, into TCCR1B; the upper byte of the code falls off. A code of 8 or
      more also reaches WGM12 and the bits above it. */
  function SetPrescaler(r: Regs, prescaler: bv16): (r': Regs)
    ensures r' == r.(tccrB := r'.tccrB)
    ensures OrOf(r'.tccrB, r.tccrB, Low8(prescaler))
    ensures prescaler < 8 ==> ClockGains(r'.tccrB, r.tccrB, prescaler as bv8)
  {
    PrescalerWrite(r.tccrB, prescaler);
    r.(tccrB := CodeWrite(r.tccrB, prescaler))
  }

  /** The register value `b | (uint8_t)(prescaler << CS10)`. */
  function CodeWrite(b: bv8, prescaler: bv16): bv8 {
    b | Low8(prescaler << CS10)
  }

  /** The code write ORs the code's low byte in; a code below 8 lands in
      CS12:0 alone. */
  lemma PrescalerWrite(b: bv8, prescaler: bv16)
    ensures OrOf(CodeWrite(b, prescaler), b, Low8(prescaler))
    ensures prescaler < 8 ==> ClockGains(CodeWrite(b, prescaler), b, prescaler as bv8)
  {
    PrescalerOr(b, prescaler);
    SmallCode(prescaler);
    if prescaler < 8 {
      ClockFieldOr(CodeWrite(b, prescaler), b, Low8(prescaler));
    }
  }

  /** `b'` is `b` with the clock-select field ORed with `code` and every
      other bit kept. */
  predicate ClockGains(b': bv8, b: bv8, code: bv8) {
    && b' & !CsMask == b & !CsMask
    && b' & CsMask == (b & CsMask) | code
  }

  lemma PrescalerOr(b: bv8, prescaler: bv16)
    ensures OrOf(b | Low8(prescaler << CS10), b, Low8(prescaler))
  {
  }

  /** A code below 8 is its own low byte and lies inside CS12:0. */
  lemma SmallCode(prescaler: bv16)
    ensures prescaler < 8 ==> Low8(prescaler) == prescaler as bv8 && Low8(prescaler) & !CsMask == 0
  {
  }

  /** OR-ing a value inside CS12:0 changes only the clock select, by OR. */
  lemma ClockFieldOr(v: bv8, b: bv8, t: bv8)
    requires OrOf(v, b, t)
    requires t & !CsMask == 0
    ensures ClockGains(v, b, t)
  {
  }

  /** The TCCR1B half of setTimer1Waveform: the switch on the requested mode
      (Timer/TIMER.c:37-65) as it acts on WGM13:12. */
  function WaveformHigh(b: bv8, waveform: bv8): (b': bv8)
    ensures b' & !WgmMaskB == b & !WgmMaskB
    ensures (b' >> WGM12) & 3 == (if waveform == 1 then 1 else if waveform == 2 then 3 else 0)
  {
    if waveform == 0 then b & !(Bit(WGM13) | Bit(WGM12))
    else if waveform == 1 then (b | Bit(WGM12)) & !Bit(WGM13)
    else if waveform == 2 then b | (Bit(WGM13) | Bit(WGM12))
    else b & !(Bit(WGM13) | Bit(WGM12))
  }

  /** setTimer1Waveform (Timer/TIMER.c:35-66): modes 1 and 2 select the two CTC
      modes; 0 and every other value select Normal. Every case clears
      WGM11:10 in TCCR1A. */
  function SetWaveform(r: Regs, waveform: bv8): (r': Regs)
    ensures r' == r.(tccrA := r'.tccrA, tccrB := r'.tccrB)
    ensures WaveformMode(r') == (if waveform == 1 then 4 else if waveform == 2 then 12 else 0)
    ensures r'.tccrA & !WgmMaskA == r.tccrA & !WgmMaskA
    ensures r'.tccrB & !WgmMaskB == r.tccrB & !WgmMaskB
  {
    r.(tccrA := r.tccrA & !(Bit(WGM11) | Bit(WGM10)), tccrB := WaveformHigh(r.tccrB, waveform))
  }

  /** Out-of-range waveform requests fall back to Normal: they leave exactly
      the image mode 0 leaves. */
  lemma UnknownWaveformIsNormal(r: Regs, waveform: bv8)
    requires waveform >= 3
    ensures SetWaveform(r, waveform) == SetWaveform(r, 0)
  {
  }

  /** setTimer1Compare (Timer/TIMER.c:73-78): OR `mode << COM1A0` into TCCR1A.
      The promoted int is truncated to eight bits, so only the COM1A field can
      gain bits, whatever the mode. */
  function SetCompare(r: Regs, mode: bv8): (r': Regs)
    ensures r' == r.(tccrA := r'.tccrA)
    ensures Covers(r'.tccrA, r.tccrA)
    ensures r'.tccrA & !ComMask == r.tccrA & !ComMask
    ensures mode < 4 ==> r'.tccrA >> COM1A0 == (r.tccrA >> COM1A0) | mode
  {
    CompareFacts(r.tccrA, mode);
    r.(tccrA := r.tccrA | Low8((mode as bv16) << COM1A0))
  }

  lemma CompareFacts(a: bv8, mode: bv8)
    ensures Covers(a | Low8((mode as bv16) << COM1A0), a)
    ensures (a | Low8((mode as bv16) << COM1A0)) & !ComMask == a & !ComMask
    ensures mode < 4 ==> (a | Low8((mode as bv16) << COM1A0)) >> COM1A0 == (a >> COM1A0) | mode
  {
  }

  /** The value setTimer1Ticks computes before OR-ing it into OCR1A. */
  function TicksValue(prescaler: bv16, ms: bv16): bv16
    requires prescaler != 0
  {
    Ticks.TruncatedTicks(prescaler, ms as nat, 16) as bv16
  }

  /** setTimer1Ticks (Timer/TIMER.c:81-97). The source divides by the code
      itself when it is not 2..5, so code 0 is a division by zero. OCR1A is
      OR-written: it gains every bit of the period and keeps every bit it had,
      so it holds the computed period only if it held no other bit before. */
  function SetTicks(r: Regs, prescaler: bv16, ms: bv16): (r': Regs)
    requires prescaler != 0
    ensures r' == r.(ocrA := r'.ocrA)
    ensures OrOf16(r'.ocrA, r.ocrA, TicksValue(prescaler, ms))
    ensures r'.ocrA == TicksValue(prescaler, ms) <==> Clean16(r.ocrA, TicksValue(prescaler, ms))
  {
    r.(ocrA := OrWrite16(r.ocrA, TicksValue(prescaler, ms)))
  }

  /** `v` holds every bit of `x`, every bit of `t`, and no other bit. */
  predicate OrOf16(v: bv16, x: bv16, t: bv16) {
    && v | x == v
    && v | t == v
    && v & !x & !t == 0
  }

  /** `x` has no bit outside `t`. */
  predicate Clean16(x: bv16, t: bv16) {
    x & !t == 0
  }

  /** `x |= t` on a 16-bit register: the register keeps its bits, gains the
      bits of `t` and no others, and ends equal to `t` exactly when it held no
      bit outside `t`. */
  function OrWrite16(x: bv16, t: bv16): (v: bv16)
    ensures OrOf16(v, x, t)
    ensures v == t <==> Clean16(x, t)
  {
    OrWriteFacts16(x, t);
    OrWriteBounds16(x, t);
    x | t
  }

  lemma OrWriteFacts16(x: bv16, t: bv16)
    ensures x | t == t <==> x & !t == 0
  {
  }

  lemma OrWriteBounds16(x: bv16, t: bv16)
    ensures OrOf16(x | t, x, t)
  {
  }

  /** The interrupt-mask bit setTimer1Interrupt enables for a waveform mode:
      overflow for Normal, compare-match A for CTC/OCR1A, input capture for
      CTC/ICR1. Other modes enable nothing. */
  function SourceBit(mode: bv8): bv8 {
    if mode == 0 then Bit(TOIE1)
    else if mode == 1 then Bit(OCIE1A)
    else if mode == 2 then Bit(ICIE1)
    else 0
  }

  /** The mask-register part of setTimer1Interrupt (Timer/TIMER.c:101-126);
      the `sei()` is applied by the caller's global state. */
  function SetInterrupt(r: Regs, mode: bv8): (r': Regs)
    ensures r' == r.(timsk := r'.timsk)
    ensures r'.timsk & !SourceMask == r.timsk & !SourceMask
    ensures IsSet(r'.timsk, TOIE1) <==> IsSet(r.timsk, TOIE1) || mode == 0
    ensures IsSet(r'.timsk, OCIE1A) <==> IsSet(r.timsk, OCIE1A) || mode == 1
    ensures IsSet(r'.timsk, ICIE1) <==> IsSet(r.timsk, ICIE1) || mode == 2
  {
    SourceBitFacts(r.timsk, mode);
    r.(timsk := r.timsk | SourceBit(mode))
  }

  lemma SourceBitFacts(m: bv8, mode: bv8)
    ensures (m | SourceBit(mode)) & !SourceMask == m & !SourceMask
    ensures IsSet(m | SourceBit(mode), TOIE1) <==> IsSet(m, TOIE1) || mode == 0
    ensures IsSet(m | SourceBit(mode), OCIE1A) <==> IsSet(m, OCIE1A) || mode == 1
    ensures IsSet(m | SourceBit(mode), ICIE1) <==> IsSet(m, ICIE1) || mode == 2
  {
  }

  /** clearTimer1 (Timer/TIMER.c:153-157): zero the counter. */
  function Clear(r: Regs): (r': Regs)
    ensures Value(r') == 0
    ensures r' == r.(tcnt := r'.tcnt)
  {
    r.(tcnt := 0)
  }

  /** resetTimer1 (Timer/TIMER.c:160-165): `TIFR1 |= 1 << TOV1` writes a one
      to the overflow flag, and a flag written with one is cleared by the
      hardware. The write is the single-bit `sbi` avr-gcc emits for TIFR1. */
  function Reset(r: Regs): (r': Regs)
    ensures CheckOverflow(r') == 0
    ensures r'.tifr & !Bit(TOV1) == r.tifr & !Bit(TOV1)
    ensures r' == r.(tifr := r'.tifr)
  {
    r.(tifr := r.tifr & !Bit(TOV1))
  }

  /** valueTimer1 (Timer/TIMER.c:168-172): read TCNT1. */
  function Value(r: Regs): bv16 {
    r.tcnt
  }

  /** stopTimer1 (Timer/TIMER.c:175-181): clear the three clock-select bits. */
  function Stop(r: Regs): (r': Regs)
    ensures ClockSelect(r') == 0
    ensures r'.tccrB & !CsMask == r.tccrB & !CsMask
    ensures r' == r.(tccrB := r'.tccrB)
  {
    r.(tccrB := r.tccrB & !(Bit(CS12) | Bit(CS11) | Bit(CS10)))
  }

  /** checkTimer1Overflow (Timer/TIMER.c:184-191): 1 when TOV1 is set, else 0. */
  function CheckOverflow(r: Regs): (v: bv8)
    ensures v <= 1
    ensures v == 1 <==> (r.tifr >> TOV1) & 1 == 1
  {
    if r.tifr & Bit(TOV1) != 0 then 1 else 0
  }

  /** The prescaler write only sets bits, so repeating it changes nothing. */
  lemma PrescalerIdempotent(r: Regs, prescaler: bv16)
    ensures SetPrescaler(SetPrescaler(r, prescaler), prescaler) == SetPrescaler(r, prescaler)
  {
  }

  /** From a stopped timer, a code 1..7 becomes exactly the clock select. */
  lemma PrescalerFromStopped(r: Regs, prescaler: bv16)
    requires ClockSelect(r) == 0 && prescaler < 8
    ensures ClockSelect(SetPrescaler(r, prescaler)) == prescaler as bv8
  {
  }

  /** Passing the divisor 8 where its code 2 is meant sets WGM12 and no
      clock-select bit: from cleared control registers Timer 1 ends in CTC
      mode 4 with its clock stopped. */
  lemma DivisorAsCodeStopsInCtc(r: Regs)
    requires r.tccrA == 0 && r.tccrB == 0
    ensures WaveformMode(SetPrescaler(r, 8)) == 4
    ensures ClockSelect(SetPrescaler(r, 8)) == 0
  {
  }

  /** The compare write only sets bits, so repeating it changes nothing. */
  lemma CompareIdempotent(r: Regs, mode: bv8)
    ensures SetCompare(SetCompare(r, mode), mode) == SetCompare(r, mode)
  {
  }

  /** Writing the same period twice is writing it once. */
  lemma TicksIdempotent(r: Regs, prescaler: bv16, ms: bv16)
    requires prescaler != 0
    ensures SetTicks(SetTicks(r, prescaler, ms), prescaler, ms) == SetTicks(r, prescaler, ms)
  {
  }

  /** OCR1A ends equal to the computed period when it was zero before. */
  lemma TicksFromZero(r: Regs, prescaler: bv16, ms: bv16)
    requires prescaler != 0 && r.ocrA == 0
    ensures SetTicks(r, prescaler, ms).ocrA == TicksValue(prescaler, ms)
  {
  }

  /** Clearing then reading returns 0; stopping does not change the count. */
  lemma ClearThenValue(r: Regs)
    ensures Value(Clear(r)) == 0
    ensures Value(Stop(r)) == Value(r)
  {
  }

  /** After a reset the overflow poll reads 0 until the flag is set again. */
  lemma ResetThenCheck(r: Regs)
    ensures CheckOverflow(Reset(r)) == 0
    ensures CheckOverflow(r.(tifr := Reset(r).tifr | Bit(TOV1))) == 1
  {
  }
}
