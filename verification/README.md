# ATmega328P peripheral drivers in Dafny

A model of a small set of bare-metal C drivers for the ATmega328P: the three
timer/counter units (Timer/TIMER.c), the USART0 serial port (USART/USART.c),
the ADC (ADC/ADC.c), the external and pin-change interrupt setters in their two
revisions (Interrupt/Interruptc.c and Interrupt/interrupt.c), and the
push-button debounce program (Debounce/Debounce.c).

Every memory-mapped register the drivers touch is a field of an immutable
register image (`bv8` or `bv16`), and every driver function is a pure function
from the old image to the new one. The contracts say which bits a call sets,
which it clears and that nothing else changes. C's integer rules are written
out:
- `1 << n` and `mode << k` are computed in the 16-bit AVR `int`, then
  truncated to the 8-bit register.
- The tick and baud computations wrap modulo 2^32 and are then cast down.
- A shift of 15 or more, and a division by a zero prescaler code, are
  undefined in C. They become preconditions.

Serial I/O is modelled as sequences of bytes: transmitting appends to an
output sequence, and receiving consumes an input sequence.

Modules, one per component:

| module | file | source |
|---|---|---|
| `AvrIo` | avr_io.dfy | bit positions and `F_CPU`; register-bit helpers |
| `Ticks` | ticks.dfy | the tick formula shared by the three `setTimerNTicks` |
| `Counter16` | counter16.dfy | Timer 1's register image and operations |
| `Counter8` | counter8.dfy | Timers 0 and 2, which have the same layout and the same code except the waveform setter, which is modelled in `TimerUnits` |
| `TimerUnits` | timer_units.dfy | all three units together: `sei()`, callback slots, `initTimerN` as an ordered list of statements, ISR dispatch |
| `Usart` | usart.dfy | USART0 |
| `Adc` | adc.dfy | ADC |
| `Interrupts` | interrupts.dfy | Interrupt/Interruptc.c |
| `InterruptsSwitch` | interrupts_switch.dfy | Interrupt/interrupt.c |
| `Debounce` | debounce.dfy | Debounce/Debounce.c |

Behaviour of the code as written, which the model keeps:
- `setTimer0Waveform` names Timer 0's WGM bits but writes TCCR1A and TCCR1B.
  Timer 0's mode never changes, and Timer 1's mode is partly overwritten.
- The `if` in ADC `setPrescaler` is a disjunction of inequalities, so it always
  holds. The argument is ignored, and the write sets ADEN rather than ADPS2:0.
- `setFrameFormat` ORs UCSZ00 in twice and never sets UCSZ01. The frame is
  8-bit only if UCSZ01 was already set.
- A baud rate of exactly 2400 is clamped to 9600, because the range test is strict.
- `getString` with `size == 0` still stores one byte before it tests the bound.
- The OCR, prescaler and compare setters OR their value in, so they never
  clear a bit. OCRnA holds the computed period only if it was zero before.
- `enableINT(0, mode)` with a mode above 3 spills into INT1's sense bits.
- `enable_pcie` sends an unknown port to PCMSK0, while `enablePCIE` writes no
  mask register for it.
- TIMER.h numbers Timer 2's prescaler codes as Timer 0's, but TCCR2B's
  clock-select table has the extra taps clk/32 and clk/128. Codes 3..5
  (`TIMER2_PRESCALER_64/256/1024`) run Timer 2 at clk/32, clk/64 and clk/128,
  while `setTimer2Ticks` computes the period for 64, 256 and 1024, so the
  period is 2, 4 or 8 times too short.
- `putString` on a string with no NUL among its first 256 bytes never
  returns: its `uint8_t` index wraps from 255 to 0, and the first 256 bytes
  are sent again and again.
- `setTimer1Prescaler` ORs its argument into TCCR1B unmasked. A divisor passed
  where a code is meant (8 rather than `TIMER1_PRESCALER_8`) sets WGM12 and no
  clock-select bit, so Timer 1 enters CTC mode and stays stopped.

## Model

| member | source | states |
|---|---|---|
| Ticks.DivisorMatchesClockSelect | Timer/TIMER.c:85-92 | codes 2..5 map to 8, 64, 256 and 1024, agreeing with the clock-select tables of Timers 0 and 1; the divisor is zero only for code 0 |
| Ticks.Timer2DivisorMismatch | Timer/TIMER.c:472-479 | for Timer 2 codes 1 and 2 agree with TCCR2B's table, but codes 3..5 use a divisor 2, 4 and 8 times the clock division TCCR2B selects |
| Ticks.TruncatedTicks | Timer/TIMER.c:469-484 | the value stored for a compare register of 8 or 16 bits is below 2^width |
| Ticks.TicksAreExactModWidth | Timer/TIMER.c:81-97 | when the 32-bit product does not wrap, the register receives the exact period `F_CPU/d*ms/1000 - 1` reduced modulo 2^width |
| Ticks.TicksExactIffFits | Timer/TIMER.c:279-295 | the stored value equals the intended period exactly when that period fits the register |
| Ticks.ZeroPeriodIsAllOnes | Timer/TIMER.c:95 | a 0 ms period stores the all-ones value of the register |
| Ticks.WorkedExamples | Timer/TIMER.c:85-96 | clk/8 at 16 MHz: 1 ms gives 1999, 10 ms gives 19999; an 8-bit unit keeps 1999 mod 256 |
| Ticks.ProductWrapExample | Timer/TIMER.c:95 | with no prescaling, 1000 ms wraps the 32-bit product and stores 34905 instead of 15999999 |
| Counter16.SetPrescaler | Timer/TIMER.c:23-29 | TCCR1B ends with exactly its old bits plus the low byte of the code (the upper byte falls off) and no other register changes; for codes below 8 only CS12:0 change and the clock select gains the code's bits |
| Counter16.DivisorAsCodeStopsInCtc | Timer/TIMER.c:23-29 | passing the divisor 8 where its code is meant, from cleared control registers, sets WGM12 and no clock-select bit: Timer 1 is in CTC mode 4 with its clock stopped |
| Counter16.WaveformHigh | Timer/TIMER.c:37-65 | WGM13:12 become 01 for mode 1, 11 for mode 2 and 00 otherwise; the other TCCR1B bits are kept |
| Counter16.SetWaveform | Timer/TIMER.c:35-66 | the WGM13:0 mode becomes 4 (CTC/OCR1A) for request 1, 12 (CTC/ICR1) for 2, and 0 otherwise; only WGM bits change |
| Counter16.UnknownWaveformIsNormal | Timer/TIMER.c:43-64 | every request of 3 or more leaves exactly the image request 0 leaves |
| Counter16.SetCompare | Timer/TIMER.c:73-78 | only the COM1A field can gain bits, whatever the mode; a mode below 4 is ORed into that field |
| Counter16.SetTicks | Timer/TIMER.c:81-97 | OCR1A ends holding every bit it held, every bit of the computed period and no other bit; so it equals the period exactly when it held no bit outside it |
| Counter16.SetInterrupt | Timer/TIMER.c:101-126 | TOIE1, OCIE1A or ICIE1 is set for mode 0, 1 or 2 and kept otherwise; no other TIMSK1 bit changes |
| Counter16.Clear | Timer/TIMER.c:153-157 | the count reads 0 and nothing else changes |
| Counter16.Reset | Timer/TIMER.c:160-165 | the overflow poll then reads 0 and the other flags are kept |
| Counter16.Stop | Timer/TIMER.c:175-181 | the clock select becomes 0 and no other TCCR1B bit changes |
| Counter16.CheckOverflow | Timer/TIMER.c:184-191 | the poll returns 0 or 1, and 1 exactly when TOV1 is set |
| Counter16.PrescalerIdempotent | Timer/TIMER.c:28 | writing the same prescaler twice is writing it once |
| Counter16.PrescalerFromStopped | Timer/TIMER.c:23-29 | from a stopped timer, a code below 8 becomes exactly the clock select |
| Counter16.CompareIdempotent | Timer/TIMER.c:77 | writing the same compare mode twice is writing it once |
| Counter16.TicksIdempotent | Timer/TIMER.c:96 | writing the same period twice is writing it once |
| Counter16.TicksFromZero | Timer/TIMER.c:96 | from a cleared OCR1A the register holds the computed period |
| Counter16.ClearThenValue | Timer/TIMER.c:153-172 | clear then value reads 0; stopping does not change the count |
| Counter16.ResetThenCheck | Timer/TIMER.c:160-191 | after a reset the poll reads 0, and it reads 1 again once TOV1 is set |
| Counter8.SetPrescaler | Timer/TIMER.c:228-234 | TCCRnB ends with exactly its old bits plus the low byte of the code (the upper byte falls off) and no other register changes; for codes below 8 only CSn2:0 change and the clock select gains the code's bits |
| Counter8.WaveformLow | Timer/TIMER.c:431-453 | WGM21:20 become 10 for mode 1 and 00 otherwise; the other TCCR2A bits are kept |
| Counter8.SetWaveform | Timer/TIMER.c:429-454 | the WGM22:0 mode becomes 2 (CTC) for request 1 and 0 otherwise; only WGM bits change |
| Counter8.UnknownWaveformIsNormal | Timer/TIMER.c:437-452 | every request of 2 or more leaves exactly the image request 0 leaves |
| Counter8.SetCompare | Timer/TIMER.c:271-276 | only the COMnA field can gain bits; a mode below 4 is ORed into that field |
| Counter8.SetTicks | Timer/TIMER.c:279-295 | OCRnA ends holding every bit it held, every bit of the computed period and no other bit; so it equals the period exactly when it held no bit outside it |
| Counter8.SetInterrupt | Timer/TIMER.c:299-318 | TOIEn or OCIEnA is set for mode 0 or 1 and kept otherwise; no other TIMSKn bit changes |
| Counter8.Clear | Timer/TIMER.c:345-349 | the count reads 0 and nothing else changes |
| Counter8.Reset | Timer/TIMER.c:352-357 | the overflow poll then reads 0 and the other flags are kept |
| Counter8.Stop | Timer/TIMER.c:367-373 | the clock select becomes 0 and no other TCCRnB bit changes |
| Counter8.CheckOverflow | Timer/TIMER.c:376-384 | the poll returns 0 or 1, and 1 exactly when TOVn is set |
| Counter8.WritesIdempotent | Timer/TIMER.c:416-466 | repeating a prescaler or compare write changes nothing |
| Counter8.TicksIdempotent | Timer/TIMER.c:483 | writing the same period twice is writing it once |
| Counter8.TicksFromZero | Timer/TIMER.c:483 | from a cleared OCRnA the register holds the computed period |
| Counter8.TicksExamples | Timer/TIMER.c:279-295 | clk/1024 with 10 ms gives 155; clk/8 with 1 ms is silently truncated to 207 |
| TimerUnits.SetTimer0Waveform | Timer/TIMER.c:239-264 | only Timer 1's two control registers change |
| TimerUnits.Timer0WaveformRewritesTimer1 | Timer/TIMER.c:248-262 | Timer 0's mode never changes; Timer 1's mode becomes 2 or 0 combined with its old WGM13, and its clock select is kept |
| TimerUnits.SetInterrupt | Timer/TIMER.c:125 | every `setTimerNInterrupt` leaves the global enable set and the callback slots unchanged |
| TimerUnits.Init | Timer/TIMER.c:129-150 | the unit's callback slot is replaced exactly when the interrupt flag is nonzero, and the global enable is then set; otherwise both are kept |
| TimerUnits.InitStepOrder | Timer/TIMER.c:321-342 | the waveform comes first; ticks run iff the waveform mode is nonzero; the mask write and the store run iff the interrupt flag is nonzero, with the store right after the mask write; the prescaler comes last and only there |
| TimerUnits.ClockStartsLast | Timer/TIMER.c:148-149 | every proper prefix of `initTimerN` leaves the unit's clock select as it was |
| TimerUnits.ArmedBeforeCallbackStored | Timer/TIMER.c:142-146 | when the callback is stored, the mask bit is already set, the global enable is on and the slots are still the old ones |
| TimerUnits.InitKeepsOthers | Timer/TIMER.c:509-530 | the other units keep their registers, except that configuring Timer 0 rewrites Timer 1's control registers |
| TimerUnits.InitWritesTicks | Timer/TIMER.c:134-136 | with waveform mode 0 the compare register is untouched; otherwise a cleared compare register receives the computed ticks |
| TimerUnits.InitStartsClock | Timer/TIMER.c:340-341 | after `initTimerN` the clock select is the old one ORed with the prescaler code |
| TimerUnits.Isr | Timer/TIMER.c:194-213 | a compiled ISR calls its unit's stored callback once; a vector without an ISR calls nothing |
| TimerUnits.DeliverOncePerEvent | Timer/TIMER.c:387-399 | over any sequence of vectors, each serviced one calls its unit's stored callback once, in order, and nothing else is called |
| TimerUnits.InitThenIsr | Timer/TIMER.c:574-586 | after `initTimerN` with interrupts, every ISR of that unit calls the newly registered callback |
| Usart.ClampBaud | USART/USART.c:12-13 | the rate used lies strictly between 2400 and 2000000; rates in that range are kept, and any other becomes 9600 |
| Usart.BaudDivisor | USART/USART.c:15-23 | the divisor fits 16 bits |
| Usart.BaudDivisorValue | USART/USART.c:15-23 | the divisor is `cpu/(k*baud) - 1` for k = 8 or 16, wrapped into 16 bits, and is exact when the quotient is 1..65536 |
| Usart.BaudExamples | USART/USART.c:9-28 | at 16 MHz and 9600 baud the divisor is 207 in double speed and 103 in normal speed; 2400 is clamped to 9600 |
| Usart.SetBaudPrescaler | USART/USART.c:26-27 | UBRR0H * 256 + UBRR0L equals the divisor, and no other register changes |
| Usart.SetTransmissionSpeed | USART/USART.c:30-40 | U2X0 is set exactly when the flag is nonzero; no other UCSR0A bit changes |
| Usart.EnableTxRx | USART/USART.c:42-47 | TXEN0 and RXEN0 are set; no other UCSR0B bit changes |
| Usart.SetFrameFormat | USART/USART.c:49-61 | USBS0 is cleared and UCSZ00 set; no other UCSR0C bit changes |
| Usart.FrameFormatCharSize | USART/USART.c:60 | the character size is 8 bits exactly when UCSZ01 was already set; from a cleared register it is 6 bits |
| Usart.InitUsart | USART/USART.c:63-76 | UBRR0 holds the divisor; U2X0 follows the speed flag, TXEN0 and RXEN0 are set, USBS0 is cleared and UCSZ00 set, and no other UCSR0A/B/C bit changes; the frame has 8 data bits exactly when UCSZ01 was already set |
| Usart.InitUsartIdempotent | USART/USART.c:63-76 | running initUSART twice with the same arguments is running it once |
| Usart.PrintByte | USART/USART.c:102-114 | exactly three decimal digits whose value is the byte |
| Usart.PrintByteOnto | USART/USART.c:102-114 | every three-digit field of value at most 255 is what printByte sends for its value |
| Usart.BeforeNul | USART/USART.c:118 | a prefix of the string containing no NUL |
| Usart.BeforeNulAt | USART/USART.c:118-119 | the prefix ends exactly at the first NUL |
| Usart.PutString | USART/USART.c:116-120 | for a string with a NUL among its first 256 bytes, the bytes sent are exactly those before the first NUL |
| Usart.PutStringWraps | USART/USART.c:118-119 | with no NUL among the first 256 bytes the `uint8_t` index wraps: every pass sends a non-NUL byte, pass `j` sending byte `j mod 256`, so the loop never ends |
| Usart.PrintLineSendsLineFeed | USART/USART.c:147-150 | printLine sends a single line feed |
| Usart.ReadLineSpec | USART/USART.c:122-137 | getString stores the bytes before the first CR, at most max(size, 1) of them; it consumes that CR or stops on a full buffer; it starves exactly when the input has no CR and is shorter than the capacity |
| Usart.GetString | USART/USART.c:122-137 | the do-while loop computes the line ReadLine describes |
| Usart.LineRoundTrip | USART/USART.c:126-134 | a CR-free line that fits, sent followed by CR, is stored exactly, and the remaining input is untouched |
| Usart.EchoStoredLine | USART/USART.c:116-136 | a stored line without NUL bytes, passed back to putString, is sent unchanged |
| Adc.ClampReference | ADC/ADC.c:20-21 | the reserved code 2 and codes above 3 become 0; codes 1 and 3 are kept |
| Adc.SetReference | ADC/ADC.c:15-23 | only REFS1:0 change; they gain the clamped code's bits and nothing is cleared |
| Adc.ReferenceFromCleared | ADC/ADC.c:22 | from a cleared REFS field the reference becomes exactly the clamped code |
| Adc.SetAdjust | ADC/ADC.c:28-40 | ADLAR is set exactly when the flag is nonzero; no other ADMUX bit changes |
| AvrIo.ClampIndex | ADC/ADC.c:56-57 | the channel (and, at Interrupt/Interruptc.c lines 51-52 and interrupt.c lines 59-60, the pin) used is at most 7: numbers 0..7 are kept and any larger number becomes 0 |
| Adc.SetChannel | ADC/ADC.c:51-61 | MUX3:0 become the clamped channel and the high nibble is kept |
| Adc.ChannelIdempotent | ADC/ADC.c:59-60 | selecting a channel twice is selecting it once, and the last selection wins |
| Adc.PrescalerTestAlwaysHolds | ADC/ADC.c:68 | the test of setPrescaler is true for every argument |
| Adc.SetPrescaler | ADC/ADC.c:63-72 | ADEN is set and no other ADCSRA bit changes |
| Adc.PrescalerIgnoresArgument | ADC/ADC.c:68-71 | setPrescaler gives the same result for every argument |
| Adc.InitAdc | ADC/ADC.c:76-97 | ADEN is set; REFS1:0 gain the clamped reference; ADLAR is set iff adjust is nonzero; no other ADMUX bit and no ADCSRA bit but ADEN and ADATE changes; mode 0 sets ADATE and clears the trigger field (free running); any other mode leaves ADATE and ADCSRB untouched |
| Adc.ReadAdc | ADC/ADC.c:139-151 | the channel is selected first, and the free-running routine is chosen exactly when the trigger field is zero |
| Adc.InitThenRead | ADC/ADC.c:89-96 | after initADC with mode 0, readADC takes the free-running branch on the requested (clamped) channel |
| Adc.InitNonzeroModeKeepsTrigger | ADC/ADC.c:145 | after initADC with a nonzero mode, the branch depends only on the old ADCSRB |
| Interrupts.OrShiftedOne | Interrupt/Interruptc.c:25 | `reg \|= 1 << n` adds bit n when it exists and changes no other bit |
| Interrupts.EnableInt | Interrupt/Interruptc.c:19-34 | only bit `interrupt` of EIMSK is added; for a two-bit mode, INT1's sense field gains the mode when the number is nonzero and INT0's when it is zero, and the other field is kept; the global enable is set |
| Interrupts.SenseWriteFacts | Interrupt/Interruptc.c:27-31 | EICRA only gains bits, and with a two-bit mode exactly one sense field changes |
| Interrupts.WideModeSpills | Interrupt/Interruptc.c:31 | for INT0 a mode of 4 sets INT1's ISC10 instead |
| Interrupts.EnablePcie | Interrupt/Interruptc.c:40-72 | bit `port` of PCICR is added; for ports 0..2 exactly the clamped pin bit is added to PCMSKport; no other mask register changes; the global enable is set |
| Interrupts.EnableIntIdempotent | Interrupt/Interruptc.c:25-31 | enabling the same interrupt twice is enabling it once |
| Interrupts.EnablePcieIdempotent | Interrupt/Interruptc.c:46-69 | enabling the same pin change twice is enabling it once |
| InterruptsSwitch.EnableInterrupt | Interrupt/interrupt.c:25-40 | only bit `interrupt` of EIMSK is added and the global enable is set |
| InterruptsSwitch.EnableInterruptMatches | Interrupt/interrupt.c:31-39 | enable_interrupt and enableINT have the same effect for every input |
| InterruptsSwitch.SwitchPort | Interrupt/interrupt.c:62-83 | ports 0..2 select their own mask register, and any other port selects PCMSK0 |
| InterruptsSwitch.EnablePcieSwitch | Interrupt/interrupt.c:48-85 | bit `port` of PCICR and exactly the clamped pin bit of the selected mask register are added; the other mask registers are kept; the global enable is set |
| InterruptsSwitch.PcieRevisionsAgree | Interrupt/interrupt.c:65-77 | for ports 0..2, enable_pcie and enablePCIE have the same effect |
| InterruptsSwitch.UnknownPortDefaultsToPortZero | Interrupt/interrupt.c:79-82 | for any other port the mask effect is that of port 0; enablePCIE writes no PCMSK0 bit there |
| Debounce.Debounce | Debounce/Debounce.c:25-37 | the result is 0 or 1, and 1 exactly when both readings see the active-low button pressed |
| Debounce.OnlyButtonPinMatters | Debounce/Debounce.c:28-33 | readings that agree on PB0 give the same result |
| Debounce.Step | Debounce/Debounce.c:52-61 | `buttonPressed` becomes this pass's result; the LED flips exactly on a press after a pass without one; no other PORTB bit changes |
| Debounce.TogglesAreRisingEdges | Debounce/Debounce.c:47-62 | the number of LED toggles equals the number of rising edges of the debounced signal |
| Debounce.RunTogglesLed | Debounce/Debounce.c:56 | after any passes only the LED bit can differ, and it differs exactly when the rising edges are odd in number |
| Debounce.RunRemembersLastPress | Debounce/Debounce.c:57-61 | `buttonPressed` equals the last debounce result |
| Debounce.HoldTogglesOnce | Debounce/Debounce.c:54-58 | holding the button from released toggles the LED once, however long it is held |
| Debounce.Presses | Debounce/Debounce.c:52 | each pass's result is "pressed" exactly when both readings see the button low |
| Debounce.MainLoop | Debounce/Debounce.c:47-62 | the loop over a finite sequence of readings ends in the state Run describes, having toggled once per rising edge |

## Left out

- Hardware evolution: counting, compare matches, CTC resets, flags set by the hardware and ADC conversion results are not modelled. ISRs are driven by an abstract sequence of taken vectors.
- Busy-wait I/O: the polling loops of `transmitByte` and `receiveByte` (USART/USART.c:78-100), `singleConversionADC` and `freeRunningADC` (ADC/ADC.c:99-137), and `_delay_us` (Debounce/Debounce.c:30). A transmitted byte is appended to an output sequence, a received byte is taken from an input sequence, and the two debounce readings are inputs.
- `printNumber` (USART/USART.c:139-145): it calls `itoa`, whose code is not part of this model.
- Concurrency: ISR preemption, torn 16-bit register reads and the race between storing a callback and its interrupt firing are not modelled. `sei()` sets a boolean, and callbacks are opaque tokens.
- The one-off register setup in Debounce's `main` (Debounce/Debounce.c:42-45) and its endless loop: `MainLoop` runs over a finite sequence of readings.
- Bit positions and `F_CPU` come from the ATmega328P datasheet, because avr/io.h is not part of this model. `PIN_CHANGE_INTERRUPT_0/1/2` are taken to be 0, 1 and 2, because the header of interrupt.c is not part of this model.
- Undefined behaviour in C is excluded by preconditions: a zero prescaler code in the tick computation (division by zero), a shift count of 15 or more in `1 << n`, and a string shorter than 256 bytes with no NUL in `putString`, which reads past the string's end.
- `resetTimerN` is modelled as the single-bit write avr-gcc emits for TIFRn, which clears only TOV. A read-modify-write would also clear every other pending flag.
- The reserved upper bits of UBRR0H are not modelled: the register holds the divisor's high byte.
- The callback slot of a unit that never ran `initTimerN` holds a null pointer. Calling it is undefined, so `Isr` requires a stored callback for every vector with an ISR.
- Timer 0 and Timer 2 share one register model (`Counter8`), because their code is the same except the waveform setter, which is modelled in `TimerUnits`, and their register bit positions are identical; their clock-select tables differ, which only the tick computation's divisor feels (`Ticks.Timer2DivisorMismatch`). Their period argument is the low byte of the model's 16-bit `Config.ms`.
- TimerUnits.InitWritesTicks: states the compare register's value only when it was cleared before `initTimerN`; otherwise the OR-write's effect is the one Counter16.SetTicks and Counter8.SetTicks state.
- TimerUnits.InitStartsClock: states the clock select only for the 3-bit codes TIMER.h defines (below 8); for wider codes Counter16.SetPrescaler states that the upper byte is lost and the low byte is ORed in, reaching WGM12 and the bits above it.
- Counter16.SetCompare: states the field's value only for modes below 4; for wider modes it states only that no bit outside COM1A changes.
- Counter8.SetCompare: states the field's value only for modes below 4; for wider modes it states only that no bit outside COMnA changes.
- Interrupts.EnableInt: states the sense fields exactly only for modes below 4; for wider modes it states that EICRA only gains bits, and WideModeSpills shows the spill-over.
