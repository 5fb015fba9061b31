/** The second revision of the interrupt setters, Interrupt/interrupt.c. Its
    enable_interrupt is enableINT again; its enable_pcie chooses the mask
    register with a switch whose default case writes PCMSK0, where enablePCIE
    writes no mask register for an unknown port. */
module InterruptsSwitch {
  import opened AvrIo
  import opened Interrupts

  /** The case labels of the switch (PCIE0..PCIE2 of PCICR). Their header is
      not part of this model; these are the port numbers the file's own
      comment gives. */
  const PIN_CHANGE_INTERRUPT_0: bv8 := 0
  const PIN_CHANGE_INTERRUPT_1: bv8 := 1
  const PIN_CHANGE_INTERRUPT_2: bv8 := 2

  /** enable_interrupt (Interrupt/interrupt.c:25-40). */
  function EnableInterrupt(r: Regs, interrupt: bv8, mode: bv8): (r': Regs)
    requires (interrupt as nat) < INT_BITS - 1
    ensures r' == r.(eimsk := r'.eimsk, eicra := r'.eicra, globalEnable := true)
    ensures BitAdded(r.eimsk, r'.eimsk, interrupt)
  {
    r.(eimsk := OrShiftedOne(r.eimsk, interrupt),
       eicra := SenseWrite(r.eicra, interrupt, mode),
       globalEnable := true)
  }

  /** Both revisions enable an external interrupt identically. */
  lemma EnableInterruptMatches(r: Regs, interrupt: bv8, mode: bv8)
    requires (interrupt as nat) < INT_BITS - 1
    ensures EnableInterrupt(r, interrupt, mode) == EnableInt(r, interrupt, mode)
  {
  }

  /** The mask register the switch of enable_pcie selects
      (Interrupt/interrupt.c:62-83): 0, 1 or 2, and 0 for any other port. */
  function SwitchPort(port: bv8): (q: bv8)
    ensures q <= 2
    ensures port <= 2 ==> q == port
    ensures port > 2 ==> q == 0
  {
    match port
    case PIN_CHANGE_INTERRUPT_0 => 0
    case PIN_CHANGE_INTERRUPT_1 => 1
    case PIN_CHANGE_INTERRUPT_2 => 2
    case _ => 0
  }

  /** enable_pcie (Interrupt/interrupt.c:48-85): bit `port` of PCICR, then the
      clamped pin bit of the mask register the switch selects. Exactly one
      mask register is written, whatever the port. */
  function EnablePcieSwitch(r: Regs, port: bv8, pin: bv8): (r': Regs)
    requires (port as nat) < INT_BITS - 1
    ensures r' == r.(pcicr := r'.pcicr, pcmsk0 := r'.pcmsk0, pcmsk1 := r'.pcmsk1,
                     pcmsk2 := r'.pcmsk2, globalEnable := true)
    ensures BitAdded(r.pcicr, r'.pcicr, port)
    ensures BitAdded(PinMask(r, SwitchPort(port)), PinMask(r', SwitchPort(port)), ClampIndex(pin))
    ensures SwitchPort(port) != 0 ==> r'.pcmsk0 == r.pcmsk0
    ensures SwitchPort(port) != 1 ==> r'.pcmsk1 == r.pcmsk1
    ensures SwitchPort(port) != 2 ==> r'.pcmsk2 == r.pcmsk2
  {
    var p := ClampIndex(pin);
    var q := SwitchPort(port);
    r.(pcicr := OrShiftedOne(r.pcicr, port),
       pcmsk0 := MaskWrite(r.pcmsk0, q == 0, p),
       pcmsk1 := MaskWrite(r.pcmsk1, q == 1, p),
       pcmsk2 := MaskWrite(r.pcmsk2, q == 2, p),
       globalEnable := true)
  }

  /** For the three ports the hardware has, both revisions agree. */
  lemma PcieRevisionsAgree(r: Regs, port: bv8, pin: bv8)
    requires port <= 2
    ensures EnablePcieSwitch(r, port, pin) == EnablePcie(r, port, pin)
  {
  }

  /** For any other port they differ only in PCMSK0: the switch revision
      writes the pin bit there, as port 0 would, and enablePCIE writes none. */
  lemma UnknownPortDefaultsToPortZero(r: Regs, port: bv8, pin: bv8)
    requires 2 < port && (port as nat) < INT_BITS - 1
    ensures EnablePcieSwitch(r, port, pin) == EnablePcie(r, port, pin).(pcmsk0 := EnablePcie(r, 0, pin).pcmsk0)
    ensures EnablePcie(r, port, pin).pcmsk0 == r.pcmsk0
    ensures EnablePcieSwitch(r, port, pin).(pcicr := 0) == EnablePcieSwitch(r, 0, pin).(pcicr := 0)
  {
  }
}
