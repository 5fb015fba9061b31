/** The ADC driver (ADC/ADC.c): the configuration setters for ADMUX and
    ADCSRA, initADC, and the mode test readADC uses to choose between its two
    conversion routines. The conversions themselves are hardware behaviour and
    are not modelled. */
module Adc {
  import opened AvrIo

  datatype Regs = Regs(admux: bv8, adcsra: bv8, adcsrb: bv8)

  /** REFS1:0 of ADMUX. */
  const RefsMask: bv8 := 0xC0
  /** MUX3:0 of ADMUX. */
  const MuxMask: bv8 := 0x0F
  /** The bits initADC clears in ADCSRB and readADC tests: ADTS2, ADTS1 and
      the position named ADPS0, which is ADTS0's position in ADCSRB. */
  const TriggerMask: bv8 := Bit(ADTS2) | Bit(ADTS1) | Bit(ADPS0)

  /** The reference setReference uses (ADC/ADC.c:20-21): the reserved code 2
      and every code above 3 become 0 (AREF). */
  function ClampReference(ref: bv8): (c: bv8)
    ensures c == 0 || c == 1 || c == 3
    ensures c != ref ==> c == 0
    ensures ref == 1 || ref == 3 ==> c == ref
  {
    if ref == 2 || ref > 3 then 0 else ref
  }

  /** The REFS1:0 field. */
  function ReferenceField(r: Regs): bv8 {
    r.admux >> REFS0
  }

  /** setReference (ADC/ADC.c:15-23): OR the clamped code, shifted to REFS0,
      into ADMUX. Only REFS1:0 can gain bits; nothing is cleared. */
  function SetReference(r: Regs, ref: bv8): (r': Regs)
    ensures r' == r.(admux := r'.admux)
    ensures Covers(r'.admux, r.admux)
    ensures r'.admux & !RefsMask == r.admux & !RefsMask
    ensures ReferenceField(r') == ReferenceField(r) | ClampReference(ref)
  {
    var c := ClampReference(ref);
    ReferenceFacts(r.admux, c);
    r.(admux := r.admux | (c << REFS0))
  }

  lemma ReferenceFacts(m: bv8, c: bv8)
    requires c <= 3
    ensures Covers(m | (c << REFS0), m)
    ensures (m | (c << REFS0)) & !RefsMask == m & !RefsMask
    ensures (m | (c << REFS0)) >> REFS0 == (m >> REFS0) | c
  {
  }

  /** From a cleared REFS field the reference ends up exactly the clamped code. */
  lemma ReferenceFromCleared(r: Regs, ref: bv8)
    requires ReferenceField(r) == 0
    ensures ReferenceField(SetReference(r, ref)) == ClampReference(ref)
  {
  }

  /** setAdjust (ADC/ADC.c:28-40): ADLAR is set exactly when the flag is
      nonzero; no other bit of ADMUX changes. */
  function SetAdjust(r: Regs, adjust: bv8): (r': Regs)
    ensures r' == r.(admux := r'.admux)
    ensures IsSet(r'.admux, ADLAR) <==> adjust != 0
    ensures r'.admux & !Bit(ADLAR) == r.admux & !Bit(ADLAR)
  {
    var m := if adjust != 0 then r.admux | Bit(ADLAR) else r.admux & !Bit(ADLAR);
    SingleBitFacts(r.admux, ADLAR);
    r.(admux := m)
  }

  /** setChannel (ADC/ADC.c:51-61): MUX3:0 become the channel, a channel
      above 7 being ADC0 (ClampIndex), and the high nibble of ADMUX is kept. */
  function SetChannel(r: Regs, channel: bv8): (r': Regs)
    ensures r' == r.(admux := r'.admux)
    ensures r'.admux & MuxMask == ClampIndex(channel)
    ensures r'.admux & !MuxMask == r.admux & !MuxMask
  {
    var c := ClampIndex(channel);
    ChannelFacts(r.admux, c);
    r.(admux := (0xF0 & r.admux) | c)
  }

  lemma ChannelFacts(m: bv8, c: bv8)
    requires c <= 7
    ensures ((0xF0 & m) | c) & MuxMask == c
    ensures ((0xF0 & m) | c) & !MuxMask == m & !MuxMask
  {
  }

  /** Selecting a channel twice is selecting it once, and the last selection
      wins over an earlier one. */
  lemma ChannelIdempotent(r: Regs, first: bv8, channel: bv8)
    ensures SetChannel(SetChannel(r, channel), channel) == SetChannel(r, channel)
    ensures SetChannel(SetChannel(r, first), channel) == SetChannel(r, channel)
  {
    var a := SetChannel(r, first).admux;
    var b := SetChannel(r, channel).admux;
    var c := SetChannel(SetChannel(r, first), channel).admux;
    var d := SetChannel(SetChannel(r, channel), channel).admux;
    NibblesDetermine(c, b);
    NibblesDetermine(d, b);
  }

  /** A byte is determined by its two nibbles. */
  lemma NibblesDetermine(x: bv8, y: bv8)
    requires x & MuxMask == y & MuxMask
    requires x & !MuxMask == y & !MuxMask
    ensures x == y
  {
  }

  /** The condition at ADC/ADC.c:68, as written: a disjunction of
      inequalities against seven different values. */
  predicate PrescalerTest(prescaler: bv8) {
    prescaler != 2 || prescaler != 4 || prescaler != 8 || prescaler != 16
    || prescaler != 32 || prescaler != 64 || prescaler != 128
  }

  /** No value equals both 2 and 4, so the test always holds. */
  lemma PrescalerTestAlwaysHolds(prescaler: bv8)
    ensures PrescalerTest(prescaler)
  {
  }

  /** setPrescaler (ADC/ADC.c:63-72): the code is replaced by 128 whenever the
      test holds, which is always, and `128 << ADPS0` is bit 7 of ADCSRA, the
      ADEN bit. So the call enables the ADC and never writes ADPS2:0. */
  function SetPrescaler(r: Regs, prescaler: bv8): (r': Regs)
    ensures r' == r.(adcsra := r'.adcsra)
    ensures IsSet(r'.adcsra, ADEN)
    ensures r'.adcsra & !Bit(ADEN) == r.adcsra & !Bit(ADEN)
  {
    var p: bv8 := if PrescalerTest(prescaler) then 128 else prescaler;
    PrescalerTestAlwaysHolds(prescaler);
    SingleBitFacts(r.adcsra, ADEN);
    assert p << ADPS0 == Bit(ADEN);
    r.(adcsra := r.adcsra | (p << ADPS0))
  }

  /** The argument of setPrescaler has no effect. */
  lemma PrescalerIgnoresArgument(r: Regs, p: bv8, q: bv8)
    ensures SetPrescaler(r, p) == SetPrescaler(r, q)
  {
    NibblesDetermine(SetPrescaler(r, p).adcsra, SetPrescaler(r, q).adcsra);
  }

  /** The ADTS2:0 trigger-source field of ADCSRB is zero: free running. */
  predicate FreeRunning(r: Regs) {
    r.adcsrb & TriggerMask == 0
  }

  /** The ADMUX bits initADC can change: REFS1:0 and ADLAR. */
  const InitMuxMask: bv8 := RefsMask | Bit(ADLAR)
  /** The ADCSRA bits initADC can change: ADEN and ADATE. */
  const InitControlMask: bv8 := Bit(ADEN) | Bit(ADATE)

  /** initADC (ADC/ADC.c:76-97): ADEN is set; REFS1:0 gain the clamped
      reference and ADLAR follows the adjust flag, no other ADMUX bit
      changing; for mode 0 ADATE is set and the trigger field is cleared (free
      running), for any other mode neither ADATE nor ADCSRB is touched. */
  function InitAdc(r: Regs, prescaler: bv8, adjust: bv8, ref: bv8, mode: bv8): (r': Regs)
    ensures IsSet(r'.adcsra, ADEN)
    ensures ReferenceField(r') == ReferenceField(r) | ClampReference(ref)
    ensures IsSet(r'.admux, ADLAR) <==> adjust != 0
    ensures r'.admux & !InitMuxMask == r.admux & !InitMuxMask
    ensures r'.adcsra & !InitControlMask == r.adcsra & !InitControlMask
    ensures mode == 0 ==> IsSet(r'.adcsra, ADATE) && FreeRunning(r')
    ensures mode != 0 ==> r'.adcsra & !Bit(ADEN) == r.adcsra & !Bit(ADEN)
    ensures mode != 0 ==> r'.adcsrb == r.adcsrb
    ensures r'.adcsrb & !TriggerMask == r.adcsrb & !TriggerMask
  {
    var r1 := r.(adcsra := r.adcsra | Bit(ADEN));
    var r2 := SetAdjust(SetReference(SetPrescaler(r1, prescaler), ref), adjust);
    MuxFrame(r.admux, SetReference(r, ref).admux, r2.admux);
    EnableFrame(r.adcsra, r2.adcsra);
    if mode == 0 then
      SingleBitFacts(r2.adcsra, ADATE);
      FreeRunningFacts(r2.adcsrb);
      AutoTriggerFrame(r.adcsra, r2.adcsra);
      r2.(adcsra := r2.adcsra | Bit(ADATE), adcsrb := r2.adcsrb & !TriggerMask)
    else r2
  }

  /** setReference then setAdjust keep every ADMUX bit outside REFS1:0 and
      ADLAR, and setAdjust keeps the reference field. */
  lemma MuxFrame(m: bv8, m1: bv8, m2: bv8)
    requires m1 & !RefsMask == m & !RefsMask
    requires m2 & !Bit(ADLAR) == m1 & !Bit(ADLAR)
    ensures m2 & !InitMuxMask == m & !InitMuxMask
    ensures m2 >> REFS0 == m1 >> REFS0
  {
  }

  /** Setting ADEN twice, once directly and once through setPrescaler, keeps
      every other ADCSRA bit. */
  lemma EnableFrame(a: bv8, a2: bv8)
    requires a2 & !Bit(ADEN) == (a | Bit(ADEN)) & !Bit(ADEN)
    ensures a2 & !Bit(ADEN) == a & !Bit(ADEN)
    ensures a2 & !InitControlMask == a & !InitControlMask
  {
  }

  /** Setting ADATE as well keeps every ADCSRA bit outside ADEN and ADATE. */
  lemma AutoTriggerFrame(a: bv8, a2: bv8)
    requires a2 & !Bit(ADEN) == a & !Bit(ADEN)
    ensures (a2 | Bit(ADATE)) & !InitControlMask == a & !InitControlMask
  {
  }

  lemma FreeRunningFacts(b: bv8)
    ensures (b & !TriggerMask) & TriggerMask == 0
    ensures (b & !TriggerMask) & !TriggerMask == b & !TriggerMask
  {
  }

  /** The two conversion routines readADC can call. */
  datatype Routine = FreeRunningConversion | SingleConversion

  /** readADC (ADC/ADC.c:139-151) up to the conversion: it selects the
      channel, then runs freeRunningADC when the trigger field is zero and
      singleConversionADC otherwise. */
  function ReadAdc(r: Regs, channel: bv8): (result: (Regs, Routine))
    ensures result.0.admux & MuxMask == ClampIndex(channel)
    ensures result.0.admux & !MuxMask == r.admux & !MuxMask
    ensures result.0.adcsra == r.adcsra && result.0.adcsrb == r.adcsrb
    ensures result.1 == FreeRunningConversion <==> FreeRunning(r)
  {
    var r' := SetChannel(r, channel);
    (r', if r'.adcsrb & TriggerMask == 0 then FreeRunningConversion else SingleConversion)
  }

  /** After initADC with mode 0, readADC takes the free-running branch, on
      the channel it was asked for (clamped). */
  lemma InitThenRead(r: Regs, prescaler: bv8, adjust: bv8, ref: bv8, channel: bv8)
    ensures var s := InitAdc(r, prescaler, adjust, ref, 0);
            && ReadAdc(s, channel).1 == FreeRunningConversion
            && ReadAdc(s, channel).0.admux & MuxMask == ClampIndex(channel)
  {
  }

  /** With a nonzero mode the branch depends only on what ADCSRB held before:
      initADC does not select single conversion by itself. */
  lemma InitNonzeroModeKeepsTrigger(r: Regs, prescaler: bv8, adjust: bv8, ref: bv8, mode: bv8, channel: bv8)
    requires mode != 0
    ensures ReadAdc(InitAdc(r, prescaler, adjust, ref, mode), channel).1 == FreeRunningConversion
            <==> FreeRunning(r)
  {
  }
}
