/** The USART0 driver (USART/USART.c): the baud-rate register computation,
    the control-register setters, and the byte-level text routines. Transmit
    appends to an output byte sequence; receive consumes an input byte
    sequence, and running out of input stands for `receiveByte` waiting
    forever. */
module Usart {
  import opened AvrIo

  /** UBRR0H and UBRR0L are only ever written as the two bytes of the
      divisor, never as bit fields, so they are kept as integers 0..255 and
      their sum `ubrrH * 256 + ubrrL` is plain arithmetic; the control
      registers are bit vectors like every other register here. */
  datatype Regs = Regs(ubrrH: Byte, ubrrL: Byte, ucsrA: bv8, ucsrB: bv8, ucsrC: bv8)

  /** BAUD_RATE_2400 and BAUD_RATE_2M (USART/USART.h:16, 30) bound the rates
      setBaudPrescaler accepts; anything else is replaced by 9600. */
  const BAUD_RATE_2400: nat := 2400
  const BAUD_RATE_2M: nat := 2000000
  const FALLBACK_BAUD: nat := 9600

  /** A byte sent or received over the line (a uint8_t or char value). */
  type Byte = x: int | 0 <= x < 256

  /** The carriage return that ends a line in getString. */
  const CR: Byte := 13
  /** The C string terminator. */
  const NUL: Byte := 0
  /** ASCII '0'. */
  const DIGIT_ZERO: Byte := 48

  /** The rate setBaudPrescaler actually uses (USART/USART.c:12-13): rates
      at or beyond either bound, including 2400 itself, become 9600. */
  function ClampBaud(baud: nat): (b: nat)
    ensures BAUD_RATE_2400 < b < BAUD_RATE_2M
    ensures BAUD_RATE_2400 < baud < BAUD_RATE_2M ==> b == baud
    ensures b != baud ==> b == FALLBACK_BAUD
  {
    if baud <= BAUD_RATE_2400 || baud >= BAUD_RATE_2M then FALLBACK_BAUD else baud
  }

  /** The samples per bit: 8 in double-speed mode, 16 otherwise. */
  function Samples(doubleSpeed: bv8): nat {
    if doubleSpeed != 0 then 8 else 16
  }

  /** The uint16_t `baudPrescaler` (USART/USART.c:15-23): `cpu / (k * baud) - 1`
      in uint32_t arithmetic, assigned to a uint16_t. The product `k * baud`
      cannot wrap once the rate is clamped; the subtraction wraps when the
      quotient is 0. */
  function BaudDivisor(cpu: nat, baud: nat, doubleSpeed: bv8): (d: nat)
    requires cpu < U32
    ensures d < U16
  {
    (Quotient(cpu, baud, doubleSpeed) - 1) % U32 % U16
  }

  /** The uint32_t quotient `cpu / (k * baud)` with the clamped rate. */
  function Quotient(cpu: nat, baud: nat, doubleSpeed: bv8): (q: nat)
    requires cpu < U32
    ensures q < U32
  {
    var k := Samples(doubleSpeed) * ClampBaud(baud);
    PositiveProduct(Samples(doubleSpeed), ClampBaud(baud));
    QuotientAtMost(cpu, k);
    cpu / k
  }

  /** The divisor is the datasheet's UBRR value `cpu / (k * baud) - 1` reduced
      to 16 bits; a quotient of 0 gives the all-ones value. */
  lemma BaudDivisorValue(cpu: nat, baud: nat, doubleSpeed: bv8)
    requires cpu < U32
    ensures var q := Quotient(cpu, baud, doubleSpeed);
            && (q >= 1 ==> BaudDivisor(cpu, baud, doubleSpeed) == (q - 1) % U16)
            && (1 <= q <= U16 ==> BaudDivisor(cpu, baud, doubleSpeed) == q - 1)
            && (q == 0 ==> BaudDivisor(cpu, baud, doubleSpeed) == U16 - 1)
  {
    WrapFacts(Quotient(cpu, baud, doubleSpeed));
  }

  lemma WrapFacts(q: nat)
    requires q < U32
    ensures q >= 1 ==> (q - 1) % U32 % U16 == (q - 1) % U16
    ensures 1 <= q <= U16 ==> (q - 1) % U32 % U16 == q - 1
    ensures q == 0 ==> (q - 1) % U32 % U16 == U16 - 1
  {
  }

  lemma PositiveProduct(a: nat, b: nat)
    requires a >= 1 && b >= 1
    ensures a * b >= 1
  {
  }

  lemma QuotientAtMost(a: nat, k: nat)
    requires k >= 1
    ensures 0 <= a / k <= a
  {
  }

  /** At 16 MHz and 9600 baud the register holds 207 in double-speed mode and
      103 in normal mode; 2400 baud is clamped and gives the 9600 values. */
  lemma BaudExamples()
    ensures BaudDivisor(F_CPU, 9600, 1) == 207
    ensures BaudDivisor(F_CPU, 9600, 0) == 103
    ensures BaudDivisor(F_CPU, 2400, 0) == 103
    ensures BaudDivisor(F_CPU, 115200, 1) == 16
  {
    assert F_CPU / (8 * 9600) == 208;
    assert F_CPU / (16 * 9600) == 104;
    assert F_CPU / (8 * 115200) == 17;
  }

  /** setBaudPrescaler (USART/USART.c:9-28): the high byte of the divisor goes
      to UBRR0H and the low byte to UBRR0L, so together they hold it exactly. */
  function SetBaudPrescaler(r: Regs, cpu: nat, baud: nat, doubleSpeed: bv8): (r': Regs)
    requires cpu < U32
    ensures r' == r.(ubrrH := r'.ubrrH, ubrrL := r'.ubrrL)
    ensures r'.ubrrH * 256 + r'.ubrrL == BaudDivisor(cpu, baud, doubleSpeed)
  {
    var d := BaudDivisor(cpu, baud, doubleSpeed);
    r.(ubrrH := d / 256, ubrrL := d % 256)
  }

  /** setTransmissionSpeed (USART/USART.c:30-40): U2X0 is set exactly when
      the flag is nonzero; no other bit of UCSR0A changes. */
  function SetTransmissionSpeed(r: Regs, doubleSpeed: bv8): (r': Regs)
    ensures r' == r.(ucsrA := r'.ucsrA)
    ensures IsSet(r'.ucsrA, U2X0) <==> doubleSpeed != 0
    ensures r'.ucsrA & !Bit(U2X0) == r.ucsrA & !Bit(U2X0)
  {
    var a := if doubleSpeed != 0 then r.ucsrA | Bit(U2X0) else r.ucsrA & !Bit(U2X0);
    SingleBitFacts(r.ucsrA, U2X0);
    r.(ucsrA := a)
  }

  /** The two enable bits of UCSR0B. */
  const TxRxMask: bv8 := Bit(TXEN0) | Bit(RXEN0)

  /** enableTxRx (USART/USART.c:42-47): TXEN0 and RXEN0 end up set and no
      other bit of UCSR0B changes. */
  function EnableTxRx(r: Regs): (r': Regs)
    ensures r' == r.(ucsrB := r'.ucsrB)
    ensures IsSet(r'.ucsrB, TXEN0) && IsSet(r'.ucsrB, RXEN0)
    ensures r'.ucsrB & !TxRxMask == r.ucsrB & !TxRxMask
  {
    EnableFacts(r.ucsrB);
    r.(ucsrB := r.ucsrB | TxRxMask)
  }

  lemma EnableFacts(b: bv8)
    ensures IsSet(b | TxRxMask, TXEN0) && IsSet(b | TxRxMask, RXEN0)
    ensures (b | TxRxMask) & !TxRxMask == b & !TxRxMask
  {
  }

  /** The character-size bits UCSZ01:00 of UCSR0C (3 selects 8 data bits when
      UCSZ02 is clear). */
  function CharSizeField(r: Regs): bv8 {
    (r.ucsrC >> UCSZ00) & 3
  }

  /** The bits setFrameFormat writes. */
  const FrameMask: bv8 := Bit(USBS0) | Bit(UCSZ00)

  /** setFrameFormat (USART/USART.c:49-61): USBS0 is cleared (one stop bit)
      and UCSZ00 is set. The second operand of the OR names UCSZ00 again, so
      UCSZ01 keeps whatever it held. */
  function SetFrameFormat(r: Regs): (r': Regs)
    ensures r' == r.(ucsrC := r'.ucsrC)
    ensures !IsSet(r'.ucsrC, USBS0) && IsSet(r'.ucsrC, UCSZ00)
    ensures r'.ucsrC & !FrameMask == r.ucsrC & !FrameMask
  {
    var c := (r.ucsrC & !Bit(USBS0)) | (Bit(UCSZ00) | Bit(UCSZ00));
    FrameFacts(r.ucsrC);
    r.(ucsrC := c)
  }

  lemma FrameFacts(c: bv8)
    ensures var c' := (c & !Bit(USBS0)) | (Bit(UCSZ00) | Bit(UCSZ00));
            && !IsSet(c', USBS0) && IsSet(c', UCSZ00)
            && c' & !FrameMask == c & !FrameMask
            && (c' >> UCSZ00) & 3 == 1 | ((c >> UCSZ00) & 2)
  {
  }

  /** The frame ends up with 8 data bits only if UCSZ01 already held 1 (as it
      does after a hardware reset); from a cleared UCSR0C it selects 6 data
      bits, not the 8 the comment at USART/USART.c:51 intends. */
  lemma FrameFormatCharSize(r: Regs)
    ensures CharSizeField(SetFrameFormat(r)) == 3 <==> IsSet(r.ucsrC, UCSZ01)
    ensures r.ucsrC == 0 ==> CharSizeField(SetFrameFormat(r)) == 1
  {
    FrameFacts(r.ucsrC);
  }

  /** initUSART (USART/USART.c:63-76): divisor, speed bit, enables and frame
      format, each setter touching its own register and only its own bits.
      The frame has 8 data bits exactly when UCSZ01 was already set. */
  function InitUsart(r: Regs, cpu: nat, baud: nat, doubleSpeed: bv8): (r': Regs)
    requires cpu < U32
    ensures r'.ubrrH * 256 + r'.ubrrL == BaudDivisor(cpu, baud, doubleSpeed)
    ensures IsSet(r'.ucsrA, U2X0) <==> doubleSpeed != 0
    ensures r'.ucsrA & !Bit(U2X0) == r.ucsrA & !Bit(U2X0)
    ensures IsSet(r'.ucsrB, TXEN0) && IsSet(r'.ucsrB, RXEN0)
    ensures r'.ucsrB & !TxRxMask == r.ucsrB & !TxRxMask
    ensures !IsSet(r'.ucsrC, USBS0) && IsSet(r'.ucsrC, UCSZ00)
    ensures r'.ucsrC & !FrameMask == r.ucsrC & !FrameMask
    ensures CharSizeField(r') == 3 <==> IsSet(r.ucsrC, UCSZ01)
  {
    var r1 := EnableTxRx(SetTransmissionSpeed(SetBaudPrescaler(r, cpu, baud, doubleSpeed), doubleSpeed));
    FrameFormatCharSize(r1);
    SetFrameFormat(r1)
  }

  /** Running initUSART twice with the same arguments is running it once. */
  lemma InitUsartIdempotent(r: Regs, cpu: nat, baud: nat, doubleSpeed: bv8)
    requires cpu < U32
    ensures InitUsart(InitUsart(r, cpu, baud, doubleSpeed), cpu, baud, doubleSpeed)
            == InitUsart(r, cpu, baud, doubleSpeed)
  {
    ReinitSpeed(r, cpu, baud, doubleSpeed);
    ReinitEnables(r, cpu, baud, doubleSpeed);
    ReinitFrame(r, cpu, baud, doubleSpeed);
  }

  /** A second initUSART leaves UCSR0A, UCSR0B and UCSR0C as the first left
      them, one register at a time. */
  lemma ReinitSpeed(r: Regs, cpu: nat, baud: nat, doubleSpeed: bv8)
    requires cpu < U32
    ensures InitUsart(InitUsart(r, cpu, baud, doubleSpeed), cpu, baud, doubleSpeed).ucsrA
            == InitUsart(r, cpu, baud, doubleSpeed).ucsrA
  {
    var s := InitUsart(r, cpu, baud, doubleSpeed);
    var t := InitUsart(s, cpu, baud, doubleSpeed);
    ByteDetermined(t.ucsrA, s.ucsrA, U2X0);
  }

  lemma ReinitEnables(r: Regs, cpu: nat, baud: nat, doubleSpeed: bv8)
    requires cpu < U32
    ensures InitUsart(InitUsart(r, cpu, baud, doubleSpeed), cpu, baud, doubleSpeed).ucsrB
            == InitUsart(r, cpu, baud, doubleSpeed).ucsrB
  {
    var s := InitUsart(r, cpu, baud, doubleSpeed);
    var t := InitUsart(s, cpu, baud, doubleSpeed);
    MaskDetermined(t.ucsrB, s.ucsrB, TxRxMask);
  }

  lemma ReinitFrame(r: Regs, cpu: nat, baud: nat, doubleSpeed: bv8)
    requires cpu < U32
    ensures InitUsart(InitUsart(r, cpu, baud, doubleSpeed), cpu, baud, doubleSpeed).ucsrC
            == InitUsart(r, cpu, baud, doubleSpeed).ucsrC
  {
    var s := InitUsart(r, cpu, baud, doubleSpeed);
    var t := InitUsart(s, cpu, baud, doubleSpeed);
    FrameDetermined(t.ucsrC, s.ucsrC);
  }

  /** Two bytes that agree outside bit `n` and on bit `n` are equal. */
  lemma ByteDetermined(x: bv8, y: bv8, n: bv8)
    requires n < 8
    requires x & !Bit(n) == y & !Bit(n)
    requires IsSet(x, n) == IsSet(y, n)
    ensures x == y
  {
  }

  /** Two UCSR0B values that agree outside TXEN0 and RXEN0, with both set in
      both, are equal. */
  lemma MaskDetermined(x: bv8, y: bv8, m: bv8)
    requires m == TxRxMask
    requires x & !m == y & !m
    requires IsSet(x, TXEN0) && IsSet(x, RXEN0)
    requires IsSet(y, TXEN0) && IsSet(y, RXEN0)
    ensures x == y
  {
  }

  /** Two UCSR0C values that agree outside USBS0 and UCSZ00, with USBS0
      clear and UCSZ00 set in both, are equal. */
  lemma FrameDetermined(x: bv8, y: bv8)
    requires x & !FrameMask == y & !FrameMask
    requires !IsSet(x, USBS0) && IsSet(x, UCSZ00)
    requires !IsSet(y, USBS0) && IsSet(y, UCSZ00)
    ensures x == y
  {
  }

  /** The digit character for a value below 10. */
  function Digit(v: nat): Byte
    requires v < 10
  {
    DIGIT_ZERO + v
  }

  /** True for the ASCII digits '0'..'9'. */
  predicate IsDigit(c: Byte) {
    DIGIT_ZERO <= c <= DIGIT_ZERO + 9
  }

  /** The value of a digit character. */
  function DigitValue(c: Byte): nat
    requires IsDigit(c)
  {
    c - DIGIT_ZERO
  }

  /** The value of a three-character decimal field. */
  function Decode3(s: seq<Byte>): nat
    requires |s| == 3
    requires forall i :: 0 <= i < 3 ==> IsDigit(s[i])
  {
    100 * DigitValue(s[0]) + 10 * DigitValue(s[1]) + DigitValue(s[2])
  }

  /** printByte (USART/USART.c:102-114): the hundreds, tens and units digits
      of the byte, always three of them (leading zeros included). */
  function PrintByte(n: Byte): (out: seq<Byte>)
    ensures |out| == 3
    ensures forall i :: 0 <= i < 3 ==> IsDigit(out[i])
    ensures Decode3(out) == n
  {
    [Digit(n / 100), Digit(n / 10 % 10), Digit(n % 10)]
  }

  /** Every three-digit field of value at most 255 is what printByte sends for
      that value: printByte and Decode3 are inverse bijections between bytes
      and such fields. */
  lemma PrintByteOnto(s: seq<Byte>)
    requires |s| == 3
    requires forall i :: 0 <= i < 3 ==> IsDigit(s[i])
    requires Decode3(s) < 256
    ensures PrintByte(Decode3(s)) == s
  {
    var n := Decode3(s);
    var h, t, u := DigitValue(s[0]), DigitValue(s[1]), DigitValue(s[2]);
    PlaceValue(100, h, 10 * t + u);
    PlaceValue(10, 10 * h + t, u);
    PlaceValue(10, h, t);
    var out := PrintByte(n);
    assert out[0] == s[0] && out[1] == s[1] && out[2] == s[2];
  }

  /** Division by a place value recovers the digits above and below it. */
  lemma PlaceValue(base: nat, high: nat, low: nat)
    requires base == 10 || base == 100
    requires low < base
    ensures (base * high + low) / base == high
    ensures (base * high + low) % base == low
  {
  }

  /** The bytes of a C string: everything before the first NUL. */
  function BeforeNul(s: seq<Byte>): (r: seq<Byte>)
    ensures NUL !in r
    ensures |r| <= |s| && r == s[..|r|]
    decreases |s|
  {
    if |s| == 0 || s[0] == NUL then [] else [s[0]] + BeforeNul(s[1..])
  }

  /** BeforeNul stops exactly at the first NUL. */
  lemma {:induction false} BeforeNulAt(s: seq<Byte>, k: nat)
    requires k < |s| && s[k] == NUL
    requires NUL !in s[..k]
    ensures BeforeNul(s) == s[..k]
    decreases k
  {
    if k > 0 {
      assert s[0] == s[..k][0];
      assert s[1..][..k - 1] == s[1..k];
      assert forall c :: c in s[1..][..k - 1] ==> c in s[..k];
      BeforeNulAt(s[1..], k - 1);
    }
  }

  /** A C string whose terminator putString reaches with its uint8_t index.
      On a string of 256 bytes or more with no NUL among the first 256 the
      index wraps from 255 to 0 and the loop never ends (PutStringWraps); on a
      shorter one without NUL it reads past the string's end. */
  predicate Terminated(s: seq<Byte>) {
    exists k :: 0 <= k < |s| && k < 256 && s[k] == NUL
  }

  /** putString (USART/USART.c:116-120): transmits, in order, the bytes before
      the first NUL. The index is a uint8_t, so the terminator must lie within
      the first 256 bytes. */
  method PutString(str: seq<Byte>) returns (out: seq<Byte>)
    requires Terminated(str)
    ensures out == BeforeNul(str)
  {
    var k :| 0 <= k < |str| && k < 256 && str[k] == NUL;
    out := [];
    var i: nat := 0;
    while str[i] != NUL
      invariant i <= k
      invariant out == str[..i]
      invariant NUL !in str[..i]
      decreases k - i
    {
      out := out + [str[i]];
      i := i + 1;
      assert str[..i] == str[..i - 1] + [str[i - 1]];
    }
    BeforeNulAt(str, i);
  }

  /** putString on a string with no NUL among its first 256 bytes, run for
      `passes` passes of its loop: the uint8_t index wraps from 255 to 0, so
      the loop test never fails and pass `j` sends byte `j mod 256`, the
      first 256 bytes going out again and again. */
  method PutStringWraps(str: seq<Byte>, passes: nat) returns (out: seq<Byte>)
    requires |str| >= 256
    requires NUL !in str[..256]
    ensures |out| == passes
    ensures forall j :: 0 <= j < passes ==> out[j] == str[j % 256] && out[j] != NUL
  {
    out := [];
    var i: bv8 := 0;
    var n := 0;
    while n < passes
      invariant n <= passes
      invariant i as nat == n % 256
      invariant |out| == n
      invariant forall j :: 0 <= j < n ==> out[j] == str[j % 256] && out[j] != NUL
    {
      assert str[i as nat] == str[..256][i as nat];
      assert str[i as nat] != NUL;
      out := out + [str[i as nat]];
      i := i + 1;
      n := n + 1;
    }
  }

  /** The outcome of getString: the bytes stored before the terminator and
      the input left over, or `Starved` when the input ends first (the real
      receiveByte would wait forever). */
  datatype LineResult = Line(stored: seq<Byte>, rest: seq<Byte>) | Starved

  /** How many bytes the do-while can store: `size`, except that with size 0
      the first byte is stored before the bound is tested. */
  function Capacity(size: Byte): nat {
    if size == 0 then 1 else size
  }

  /** The do-while of getString from a point where `stored` has been stored. */
  function ReadLoop(input: seq<Byte>, size: Byte, stored: seq<Byte>): LineResult
    decreases |input|
  {
    if |input| == 0 then Starved
    else
      var c := input[0];
      var stored' := if c != CR then stored + [c] else stored;
      if c != CR && |stored'| < size then ReadLoop(input[1..], size, stored')
      else Line(stored', input[1..])
  }

  /** getString (USART/USART.c:122-137) as a function of the received bytes. */
  function ReadLine(input: seq<Byte>, size: Byte): LineResult {
    ReadLoop(input, size, [])
  }

  /** The string getString leaves in the buffer: the stored bytes and the NUL
      written at `str[i]`. */
  function Buffer(stored: seq<Byte>): (buf: seq<Byte>)
    ensures |buf| == |stored| + 1 && buf[|stored|] == NUL
    ensures buf[..|stored|] == stored
  {
    stored + [NUL]
  }

  /** The full behaviour of getString in terms of the input alone: it stores
      the bytes up to the first CR, at most Capacity(size) of them; it consumes
      the CR when it stops there and nothing more when it stops on a full
      buffer; and it starves exactly when the input holds neither a CR nor
      enough bytes to fill the buffer. */
  lemma {:induction false} ReadLineSpec(input: seq<Byte>, size: Byte)
    ensures ReadLine(input, size).Starved? <==> CR !in input && |input| < Capacity(size)
    ensures ReadLine(input, size).Line? ==>
              var r := ReadLine(input, size);
              && CR !in r.stored
              && |r.stored| <= Capacity(size)
              && (input == r.stored + [CR] + r.rest || input == r.stored + r.rest)
              && (input == r.stored + [CR] + r.rest ==> |r.stored| < Capacity(size))
              && (input != r.stored + [CR] + r.rest ==> |r.stored| == Capacity(size))
  {
    ReadLoopSpec(input, size, []);
  }

  lemma {:induction false} ReadLoopSpec(input: seq<Byte>, size: Byte, stored: seq<Byte>)
    requires CR !in stored
    requires |stored| < Capacity(size)
    ensures ReadLoop(input, size, stored).Starved?
            <==> CR !in input && |stored| + |input| < Capacity(size)
    ensures ReadLoop(input, size, stored).Line? ==>
              var r := ReadLoop(input, size, stored);
              && CR !in r.stored
              && |r.stored| <= Capacity(size)
              && |r.stored| >= |stored| && r.stored[..|stored|] == stored
              && (stored + input == r.stored + [CR] + r.rest || stored + input == r.stored + r.rest)
              && (stored + input == r.stored + [CR] + r.rest ==> |r.stored| < Capacity(size))
              && (stored + input != r.stored + [CR] + r.rest ==> |r.stored| == Capacity(size))
    decreases |input|
  {
    if |input| > 0 {
      var c := input[0];
      var rest := input[1..];
      assert input == [c] + rest;
      if c == CR {
        assert stored + input == stored + [CR] + rest;
      } else {
        var s' := stored + [c];
        assert stored + input == s' + rest;
        assert CR !in s';
        if |s'| < size {
          ReadLoopSpec(rest, size, s');
          var r := ReadLoop(rest, size, s');
          if r.Line? {
            assert r.stored[..|stored|] == r.stored[..|s'|][..|stored|];
          }
        } else {
          assert |s'| == Capacity(size);
          assert |s' + [CR] + rest| == |stored + input| + 1;
        }
      }
    }
  }

  /** getString as a loop over the received bytes: `stored` holds the bytes
      written to the buffer so far and `pos` counts the bytes received. */
  method GetString(input: seq<Byte>, size: Byte) returns (r: LineResult)
    ensures r == ReadLine(input, size)
  {
    var stored: seq<Byte> := [];
    var pos := 0;
    while true
      invariant 0 <= pos <= |input|
      invariant |stored| <= pos
      invariant |stored| < Capacity(size)
      invariant ReadLoop(input[pos..], size, stored) == ReadLine(input, size)
      decreases |input| - pos
    {
      if pos == |input| {
        return Starved;
      }
      var c := input[pos];
      pos := pos + 1;
      if c != CR {
        stored := stored + [c];
      }
      if !(c != CR && |stored| < size) {
        return Line(stored, input[pos..]);
      }
    }
  }

  /** A line of at most Capacity(size) - 1 bytes without CR, sent followed by
      CR, is read back exactly, and the rest of the input is left unread. */
  lemma LineRoundTrip(line: seq<Byte>, more: seq<Byte>, size: Byte)
    requires CR !in line
    requires |line| < Capacity(size)
    ensures ReadLine(line + [CR] + more, size) == Line(line, more)
  {
    var x := line + [CR] + more;
    ReadLineSpec(x, size);
    assert x[|line|] == CR;
    var r := ReadLine(x, size);
    NoCrInPrefix(x, r.stored, r.rest);
    SplitAtFirstCr(line, more, r.stored, r.rest);
  }

  /** Bytes of a CR-free prefix are not CR. */
  lemma NoCrInPrefix(x: seq<Byte>, p: seq<Byte>, q: seq<Byte>)
    ensures x == p + q && CR !in p ==> forall i :: 0 <= i < |p| ==> x[i] != CR
  {
    if x == p + q && CR !in p {
      assert forall i :: 0 <= i < |p| ==> x[i] == p[i];
    }
  }

  /** "Bytes without CR, a CR, the rest" splits an input in one way only. */
  lemma SplitAtFirstCr(a: seq<Byte>, b: seq<Byte>, c: seq<Byte>, d: seq<Byte>)
    requires CR !in a && CR !in c
    requires a + [CR] + b == c + [CR] + d
    ensures c == a && d == b
  {
    var x := a + [CR] + b;
    assert forall i :: 0 <= i < |a| ==> x[i] == a[i];
    assert forall i :: 0 <= i < |c| ==> x[i] == c[i];
    assert x[|a|] == CR && x[|c|] == CR;
    assert |a| == |c|;
    assert c == x[..|c|];
    assert a == x[..|a|];
    assert d == x[|c| + 1..];
    assert b == x[|a| + 1..];
  }

  /** The line feed printLine sends. */
  const LF: Byte := 10

  /** printLine (USART/USART.c:147-150) is putString("\n"): the C string
      literal is a line feed followed by its NUL, and only the line feed goes
      out. */
  lemma PrintLineSendsLineFeed()
    ensures Terminated([LF, NUL])
    ensures BeforeNul([LF, NUL]) == [LF]
  {
    assert [LF, NUL][1] == NUL;
  }

  /** A stored line without NUL bytes, sent back with putString, goes out
      unchanged. */
  lemma EchoStoredLine(stored: seq<Byte>)
    requires NUL !in stored
    ensures BeforeNul(Buffer(stored)) == stored
  {
    assert Buffer(stored)[..|stored|] == stored;
    BeforeNulAt(Buffer(stored), |stored|);
  }
}
