/** The tick computation shared by setTimer0Ticks, setTimer1Ticks and
    setTimer2Ticks (Timer/TIMER.c:81-97, 279-295, 469-484): a prescaler code is
    mapped to a divisor, `F_CPU / divisor * ms / 1000 - 1` is evaluated in
    32-bit unsigned arithmetic, and the result is cast down to the width of the
    compare register. */
module Ticks {
  import opened AvrIo

  /** The divisor the tick computation uses for a prescaler code. Codes 2..5
      name the clk/8 .. clk/1024 taps; every other code, including 0 ("no
      clock") and 1, is used as the divisor unchanged. */
  function Divisor(code: bv16): nat {
    if code == 2 then 8
    else if code == 3 then 64
    else if code == 4 then 256
    else if code == 5 then 1024
    else code as nat
  }

  /** The clock division that clock-select codes 1..5 give in the ATmega328P
      datasheet tables of TCCR0B and TCCR1B. */
  function Timer01Division(code: bv16): nat
    requires 1 <= code <= 5
  {
    [1, 8, 64, 256, 1024][code as nat - 1]
  }

  /** The clock division that clock-select codes 1..7 give in the datasheet
      table of TCCR2B, which has two extra taps, clk/32 and clk/128. */
  function Timer2Division(code: bv16): nat
    requires 1 <= code <= 7
  {
    [1, 8, 32, 64, 128, 256, 1024][code as nat - 1]
  }

  /** For Timers 0 and 1 the divisor agrees with the clock-select table for
      every named code, and is zero only for the stop code 0, which makes the
      C division undefined. */
  lemma DivisorMatchesClockSelect(code: bv16)
    ensures 1 <= code <= 5 ==> Divisor(code) == Timer01Division(code)
    ensures Divisor(code) == 0 <==> code == 0
  {
  }

  /** TIMER.h numbers Timer 2's prescaler codes as Timer 0's, so for codes
      3..5 the divisor setTimer2Ticks uses is 2, 4 and 8 times the division
      TCCR2B actually selects: the tick count is that many times too small
      for the clock Timer 2 runs at, and the period that many times too
      short. Codes 1 and 2 agree. */
  lemma Timer2DivisorMismatch(code: bv16)
    requires 1 <= code <= 5
    ensures code <= 2 ==> Divisor(code) == Timer2Division(code)
    ensures 3 <= code ==> Divisor(code) == Timer2Division(code) * [2, 4, 8][code as nat - 3]
  {
  }

  /** The uint32_t value of `F_CPU / d * ms / 1000 - 1`: the product and the
      final subtraction wrap modulo 2^32, the divisions truncate. */
  function Raw32(d: nat, ms: nat): (v: nat)
    requires d > 0
    ensures v < U32
  {
    ((F_CPU / d) * ms % U32 / 1000 - 1) % U32
  }

  /** The period in ticks with no wrap-around and no truncation: the value
      the formula is meant to produce. It is -1 when fewer than 1000 timer
      clocks fit into `ms` milliseconds. */
  function ExactTicks(d: nat, ms: nat): int
    requires d > 0
  {
    (F_CPU / d) * ms / 1000 - 1
  }

  /** True when the 32-bit product `F_CPU / d * ms` does not wrap. */
  predicate NoProductWrap(d: nat, ms: nat)
    requires d > 0
  {
    (F_CPU / d) * ms < U32
  }

  /** The ticks value for a compare register of `width` bits: the uint32_t
      result cast to uint16_t (Timer 1) or uint8_t (Timers 0 and 2). */
  function TruncatedTicks(code: bv16, ms: nat, width: nat): (t: nat)
    requires code != 0
    requires width == 8 || width == 16
    ensures t < Pow2(width)
  {
    Raw32(Divisor(code), ms) % Pow2(width)
  }

  /** 2^width for the two compare-register widths. */
  function Pow2(width: nat): nat
    requires width == 8 || width == 16
  {
    if width == 8 then U8 else U16
  }

  /** When the product does not wrap, the register receives the exact period
      reduced modulo 2^width: a period too long for the register is silently
      truncated rather than reported. */
  lemma TicksAreExactModWidth(code: bv16, ms: nat, width: nat)
    requires code != 0
    requires width == 8 || width == 16
    requires NoProductWrap(Divisor(code), ms)
    ensures TruncatedTicks(code, ms, width) == ExactTicks(Divisor(code), ms) % Pow2(width)
  {
    RawIsExactWhenNoWrap(Divisor(code), ms, width);
  }

  lemma RawIsExactWhenNoWrap(d: nat, ms: nat, width: nat)
    requires d > 0
    requires width == 8 || width == 16
    requires NoProductWrap(d, ms)
    ensures Raw32(d, ms) % Pow2(width) == ExactTicks(d, ms) % Pow2(width)
  {
    var x := (F_CPU / d) * ms;
    assert x % U32 == x;
    var q := x / 1000;
    assert Raw32(d, ms) == (q - 1) % U32;
    assert ExactTicks(d, ms) == q - 1;
    if q == 0 {
      assert Raw32(d, ms) == U32 - 1;
    } else {
      assert q - 1 < U32;
      assert Raw32(d, ms) == q - 1;
    }
  }

  /** The truncated value equals the intended period exactly when that period
      fits the register; otherwise the compare register receives a different,
      shorter period and nothing reports it. */
  lemma TicksExactIffFits(code: bv16, ms: nat, width: nat)
    requires code != 0
    requires width == 8 || width == 16
    requires NoProductWrap(Divisor(code), ms)
    ensures TruncatedTicks(code, ms, width) == ExactTicks(Divisor(code), ms)
            <==> 0 <= ExactTicks(Divisor(code), ms) < Pow2(width)
  {
    TicksAreExactModWidth(code, ms, width);
  }

  /** A zero-millisecond period yields the all-ones value of the register. */
  lemma ZeroPeriodIsAllOnes(code: bv16, width: nat)
    requires code != 0
    requires width == 8 || width == 16
    ensures TruncatedTicks(code, 0, width) == Pow2(width) - 1
  {
  }

  /** Worked values at 16 MHz with the clk/8 code 2: 1 ms is 1999 ticks and
      10 ms is 19999 ticks, both of which fit Timer 1's 16-bit register, while
      Timer 0 or 2 keeps only the low byte of 1999. */
  lemma WorkedExamples()
    ensures TruncatedTicks(2, 1, 16) == 1999
    ensures TruncatedTicks(2, 10, 16) == 19999
    ensures TruncatedTicks(2, 1, 8) == 1999 % 256
  {
    assert Divisor(2) == 8;
    assert F_CPU / 8 == 2000000;
    assert Raw32(8, 1) == 1999;
    assert Raw32(8, 10) == 19999;
  }

  /** An example of a silent 32-bit wrap: code 1 (no prescaling) with 1000 ms
      overflows the product `16000000 * 1000`, and Timer 1 receives 34905
      instead of the intended 15999999 (which would not fit anyway). */
  lemma ProductWrapExample()
    ensures !NoProductWrap(Divisor(1), 1000)
    ensures TruncatedTicks(1, 1000, 16) == 34905
    ensures ExactTicks(Divisor(1), 1000) == 15999999
  {
    assert Divisor(1) == 1;
    assert F_CPU / 1 == 16000000;
    assert 16000000 * 1000 % U32 == 3115098112;
    assert Raw32(1, 1000) == 3115097;
  }
}
