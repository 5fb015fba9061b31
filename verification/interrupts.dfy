/** The external-interrupt and pin-change-interrupt setters of
    Interrupt/Interruptc.c. Every register write is a read-modify-write OR of
    a value computed in AVR `int` arithmetic and truncated to 8 bits. */
module Interrupts {
  import opened AvrIo

  /** The registers the two setters write, and the global interrupt enable
      that `sei()` sets. */
  datatype Regs = Regs(
    eimsk: bv8,
    eicra: bv8,
    pcicr: bv8,
    pcmsk0: bv8,
    pcmsk1: bv8,
    pcmsk2: bv8,
    globalEnable: bool)

  /** The pin-change mask register of port 0, 1 or 2 (PCMSK0..PCMSK2). */
  function PinMask(r: Regs, port: bv8): bv8
    requires port <= 2
  {
    if port == 0 then r.pcmsk0 else if port == 1 then r.pcmsk1 else r.pcmsk2
  }

  /** The sense-control field of INT0 (ISC01:00) and of INT1 (ISC11:10). */
  function Sense0(r: Regs): bv8 {
    (r.eicra >> ISC00) & 3
  }

  function Sense1(r: Regs): bv8 {
    (r.eicra >> ISC10) & 3
  }

  /** `after` is `before` with bit `n` added: nothing is cleared, bit `n` is
      set when it exists, and no other bit changes. */
  predicate BitAdded(before: bv8, after: bv8, n: bv8) {
    && Covers(after, before)
    && (n < 8 ==> IsSet(after, n) && after & !Bit(n) == before & !Bit(n))
    && (n >= 8 ==> after == before)
  }

  /** `reg |= (1 << n)` with `n` promoted to a 16-bit int. */
  function OrShiftedOne(x: bv8, n: bv8): (y: bv8)
    requires (n as nat) < INT_BITS - 1
    ensures BitAdded(x, y, n)
  {
    OrShiftedOneFacts(x, n);
    x | ShiftedOne(n)
  }

  lemma OrShiftedOneFacts(x: bv8, n: bv8)
    requires (n as nat) < INT_BITS - 1
    ensures Covers(x | ShiftedOne(n), x)
    ensures n < 8 ==> IsSet(x | ShiftedOne(n), n) && (x | ShiftedOne(n)) & !Bit(n) == x & !Bit(n)
    ensures n >= 8 ==> x | ShiftedOne(n) == x
  {
    if n < 8 {
      SingleBitFacts(x, n);
    }
  }

  /** `EICRA |= (mode << shift)` with `mode` promoted to a 16-bit int. */
  function OrMode(e: bv8, mode: bv8, shift: bv8): bv8
    requires shift < 8
  {
    e | Low8((mode as bv16) << shift)
  }

  /** The EICRA writes of enableINT (Interrupt/Interruptc.c:27-31): the mode
      goes to ISC10 for a nonzero interrupt number and to ISC00 for zero. */
  function SenseWrite(e: bv8, interrupt: bv8, mode: bv8): bv8 {
    var e1 := if interrupt != 0 then OrMode(e, mode, ISC10) else e;
    if interrupt == 0 then OrMode(e1, mode, ISC00) else e1
  }

  /** For a two-bit mode exactly one sense field gains the mode's bits:
      INT1's for a nonzero interrupt number, INT0's for zero; the upper
      nibble never changes. */
  lemma SenseWriteFacts(e: bv8, interrupt: bv8, mode: bv8)
    ensures Covers(SenseWrite(e, interrupt, mode), e)
    ensures mode <= 3 ==> SenseWrite(e, interrupt, mode) & 0xF0 == e & 0xF0
    ensures mode <= 3 && interrupt != 0 ==>
              && (SenseWrite(e, interrupt, mode) >> ISC10) & 3 == ((e >> ISC10) & 3) | mode
              && (SenseWrite(e, interrupt, mode) >> ISC00) & 3 == (e >> ISC00) & 3
    ensures mode <= 3 && interrupt == 0 ==>
              && (SenseWrite(e, interrupt, mode) >> ISC00) & 3 == ((e >> ISC00) & 3) | mode
              && (SenseWrite(e, interrupt, mode) >> ISC10) & 3 == (e >> ISC10) & 3
  {
    if interrupt != 0 {
      OrModeFacts(e, mode, ISC10);
    } else {
      OrModeFacts(e, mode, ISC00);
    }
  }

  lemma OrModeFacts(e: bv8, mode: bv8, shift: bv8)
    requires shift == ISC00 || shift == ISC10
    ensures Covers(OrMode(e, mode, shift), e)
    ensures mode <= 3 ==> OrMode(e, mode, shift) & 0xF0 == e & 0xF0
    ensures mode <= 3 ==> (OrMode(e, mode, shift) >> shift) & 3 == ((e >> shift) & 3) | mode
    ensures mode <= 3 && shift == ISC10 ==> (OrMode(e, mode, shift) >> ISC00) & 3 == (e >> ISC00) & 3
    ensures mode <= 3 && shift == ISC00 ==> (OrMode(e, mode, shift) >> ISC10) & 3 == (e >> ISC10) & 3
  {
  }

  /** enableINT (Interrupt/Interruptc.c:19-34). The shift `1 << interrupt` is
      undefined for 15 and above; numbers 8..14 set no EIMSK bit. */
  function EnableInt(r: Regs, interrupt: bv8, mode: bv8): (r': Regs)
    requires (interrupt as nat) < INT_BITS - 1
    ensures r' == r.(eimsk := r'.eimsk, eicra := r'.eicra, globalEnable := true)
    ensures BitAdded(r.eimsk, r'.eimsk, interrupt)
    ensures Covers(r'.eicra, r.eicra)
    ensures mode <= 3 && interrupt != 0 ==> Sense1(r') == Sense1(r) | mode && Sense0(r') == Sense0(r)
    ensures mode <= 3 && interrupt == 0 ==> Sense0(r') == Sense0(r) | mode && Sense1(r') == Sense1(r)
    ensures mode <= 3 ==> r'.eicra & 0xF0 == r.eicra & 0xF0
  {
    SenseWriteFacts(r.eicra, interrupt, mode);
    r.(eimsk := OrShiftedOne(r.eimsk, interrupt),
       eicra := SenseWrite(r.eicra, interrupt, mode),
       globalEnable := true)
  }

  /** A mode wider than two bits written for INT0 spills into INT1's sense
      field: enableINT(0, 4) sets ISC10. */
  lemma WideModeSpills(r: Regs)
    requires r.eicra == 0
    ensures Sense1(EnableInt(r, 0, 4)) == 1
    ensures Sense0(EnableInt(r, 0, 4)) == 0
  {
  }

  /** enablePCIE (Interrupt/Interruptc.c:40-72): bit `port` of PCICR, then
      the pin bit of PCMSK0, PCMSK1 or PCMSK2 for ports 0, 1 and 2, a pin
      above 7 being pin 0 (ClampIndex); any other port changes no mask
      register. */
  function EnablePcie(r: Regs, port: bv8, pin: bv8): (r': Regs)
    requires (port as nat) < INT_BITS - 1
    ensures r' == r.(pcicr := r'.pcicr, pcmsk0 := r'.pcmsk0, pcmsk1 := r'.pcmsk1,
                     pcmsk2 := r'.pcmsk2, globalEnable := true)
    ensures BitAdded(r.pcicr, r'.pcicr, port)
    ensures port <= 2 ==> BitAdded(PinMask(r, port), PinMask(r', port), ClampIndex(pin))
    ensures port != 0 ==> r'.pcmsk0 == r.pcmsk0
    ensures port != 1 ==> r'.pcmsk1 == r.pcmsk1
    ensures port != 2 ==> r'.pcmsk2 == r.pcmsk2
  {
    var p := ClampIndex(pin);
    r.(pcicr := OrShiftedOne(r.pcicr, port),
       pcmsk0 := MaskWrite(r.pcmsk0, port == 0, p),
       pcmsk1 := MaskWrite(r.pcmsk1, port == 1, p),
       pcmsk2 := MaskWrite(r.pcmsk2, port == 2, p),
       globalEnable := true)
  }

  /** `PCMSKn |= (1 << pin)` when port n is the selected one. */
  function MaskWrite(m: bv8, selected: bool, pin: bv8): (m': bv8)
    requires pin <= 7
    ensures selected ==> BitAdded(m, m', pin)
    ensures !selected ==> m' == m
  {
    if selected then OrShiftedOne(m, pin) else m
  }

  /** Enabling the same external interrupt twice is enabling it once. */
  lemma EnableIntIdempotent(r: Regs, interrupt: bv8, mode: bv8)
    requires (interrupt as nat) < INT_BITS - 1
    ensures EnableInt(EnableInt(r, interrupt, mode), interrupt, mode) == EnableInt(r, interrupt, mode)
  {
    var s := EnableInt(r, interrupt, mode);
    OrIdempotent(r.eimsk, ShiftedOne(interrupt));
    OrIdempotent(r.eicra, Low8((mode as bv16) << ISC10));
    OrIdempotent(r.eicra, Low8((mode as bv16) << ISC00));
    assert EnableInt(s, interrupt, mode).eimsk == s.eimsk;
    assert EnableInt(s, interrupt, mode).eicra == s.eicra;
  }

  /** Enabling the same pin-change interrupt twice is enabling it once. */
  lemma EnablePcieIdempotent(r: Regs, port: bv8, pin: bv8)
    requires (port as nat) < INT_BITS - 1
    ensures EnablePcie(EnablePcie(r, port, pin), port, pin) == EnablePcie(r, port, pin)
  {
    var s := EnablePcie(r, port, pin);
    var p := ClampIndex(pin);
    OrIdempotent(r.pcicr, ShiftedOne(port));
    OrIdempotent(r.pcmsk0, ShiftedOne(p));
    OrIdempotent(r.pcmsk1, ShiftedOne(p));
    OrIdempotent(r.pcmsk2, ShiftedOne(p));
    assert EnablePcie(s, port, pin).pcicr == s.pcicr;
  }

  lemma OrIdempotent(x: bv8, v: bv8)
    ensures (x | v) | v == x | v
  {
  }
}
