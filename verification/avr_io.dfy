/** Constants of the ATmega328P the drivers are written against: the CPU clock
    from Timer/TIMER.h and the bit positions that avr-libc's <avr/io.h> declares
    for this part. Every position is a shift amount inside an 8-bit I/O register.
    The header itself is not part of this model; the values below are the ones
    the ATmega328P datasheet gives. */
module AvrIo {

  /** CPU clock in Hz (Timer/TIMER.h:12, also the default in the other headers). */
  const F_CPU: nat := 16000000

  /** 2^32, 2^16 and 2^8: the moduli of C's uint32_t, uint16_t and uint8_t. */
  const U32: nat := 0x1_0000_0000
  const U16: nat := 0x1_0000
  const U8: nat := 0x100

  // Timer/Counter 1 (TCCR1A, TCCR1B, TIMSK1, TIFR1)
  const CS10: bv8 := 0
  const CS11: bv8 := 1
  const CS12: bv8 := 2
  const WGM10: bv8 := 0
  const WGM11: bv8 := 1
  const WGM12: bv8 := 3
  const WGM13: bv8 := 4
  const COM1A0: bv8 := 6
  const COM1A1: bv8 := 7
  const TOIE1: bv8 := 0
  const OCIE1A: bv8 := 1
  const ICIE1: bv8 := 5
  const TOV1: bv8 := 0

  // Timer/Counter 0 (TCCR0A, TCCR0B, TIMSK0, TIFR0)
  const CS00: bv8 := 0
  const CS01: bv8 := 1
  const CS02: bv8 := 2
  const WGM00: bv8 := 0
  const WGM01: bv8 := 1
  const WGM02: bv8 := 3
  const COM0A0: bv8 := 6
  const COM0A1: bv8 := 7
  const TOIE0: bv8 := 0
  const OCIE0A: bv8 := 1
  const TOV0: bv8 := 0

  // Timer/Counter 2 has the same layout as Timer/Counter 0 on this part.
  const CS20: bv8 := 0
  const CS21: bv8 := 1
  const CS22: bv8 := 2
  const WGM20: bv8 := 0
  const WGM21: bv8 := 1
  const WGM22: bv8 := 3
  const COM2A0: bv8 := 6
  const TOIE2: bv8 := 0
  const OCIE2A: bv8 := 1
  const TOV2: bv8 := 0

  // USART0 (UCSR0A, UCSR0B, UCSR0C)
  const U2X0: bv8 := 1
  const TXEN0: bv8 := 3
  const RXEN0: bv8 := 4
  const USBS0: bv8 := 3
  const UCSZ00: bv8 := 1
  const UCSZ01: bv8 := 2

  // ADC (ADMUX, ADCSRA, ADCSRB)
  const REFS0: bv8 := 6
  const ADLAR: bv8 := 5
  const ADEN: bv8 := 7
  const ADATE: bv8 := 5
  const ADPS0: bv8 := 0
  const ADTS0: bv8 := 0
  const ADTS1: bv8 := 1
  const ADTS2: bv8 := 2

  // External interrupts (EICRA)
  const ISC00: bv8 := 0
  const ISC10: bv8 := 2

  // Port B
  const PB0: bv8 := 0
  const PB5: bv8 := 5

  /** The width of C's `int` on AVR: operands narrower than this are promoted
      to a 16-bit int before a shift. */
  const INT_BITS: nat := 16

  /** The single-bit mask `1 << n` of an 8-bit register. */
  function Bit(n: bv8): bv8
    requires n < 8
  {
    1 << n
  }

  /** True when bit `n` of `x` reads one. */
  predicate IsSet(x: bv8, n: bv8)
    requires n < 8
  {
    x & Bit(n) != 0
  }

  /** The low byte of a 16-bit value: C's conversion to uint8_t. */
  function Low8(x: bv16): bv8 {
    (x & 0xFF) as bv8
  }

  /** `(uint8_t)(1 << n)` with the constant 1 an AVR `int`. The shift is only
      defined while `1 << n` is representable in a 16-bit signed int; a set bit
      at position 8 or above falls off when the value is stored into an 8-bit
      register. */
  function ShiftedOne(n: bv8): (m: bv8)
    requires (n as nat) < INT_BITS - 1
    ensures n < 8 ==> m == Bit(n)
    ensures (n as nat) >= 8 ==> m == 0
  {
    Low8((1 as bv16) << n)
  }

  /** The index clamp the drivers apply to an ADC channel and to a
      pin-change pin: any number above 7 becomes 0. */
  function ClampIndex(n: bv8): (c: bv8)
    ensures c <= 7
    ensures n <= 7 ==> c == n
    ensures c != n ==> c == 0
  {
    if n > 7 then 0 else n
  }

  /** `a | b == a` with every bit of `b` already in `a`: a write that only sets bits. */
  predicate Covers(a: bv8, b: bv8) {
    a | b == a
  }

  /** `v` holds every bit of `x`, every bit of `t`, and no other bit: the
      register image after `x |= t`. */
  predicate OrOf(v: bv8, x: bv8, t: bv8) {
    && Covers(v, x)
    && Covers(v, t)
    && v & !x & !t == 0
  }

  /** A write that keeps every bit outside the field `m` keeps every field `k`
      disjoint from `m`. */
  lemma DisjointFieldKept(b: bv8, b': bv8, m: bv8, k: bv8)
    requires b' & !m == b & !m
    requires m & k == 0
    ensures b' & k == b & k
  {
    assert b' & k == (b' & !m) & k;
    assert b & k == (b & !m) & k;
  }

  /** Setting or clearing one bit decides that bit and keeps the rest. */
  lemma SingleBitFacts(x: bv8, n: bv8)
    requires n < 8
    ensures IsSet(x | Bit(n), n) && !IsSet(x & !Bit(n), n)
    ensures (x | Bit(n)) & !Bit(n) == x & !Bit(n)
    ensures (x & !Bit(n)) & !Bit(n) == x & !Bit(n)
  {
  }
}
