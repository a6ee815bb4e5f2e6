/**
 * Constants and pure arithmetic of the i8253/i8254 programmable interval
 * timer (PIT) and of the system-control port 0x61 on a PC.
 */
module Pit {
  import opened Bytes

  /** Input clock of the PIT in Hz (the kernel's PIT_TICK_RATE, an unsigned long). */
  const PitTickRate: nat := 1193182

  /** Width of C's unsigned long (x86-64) and unsigned int. */
  const UnsignedLongModulus: nat := 0x1_0000_0000_0000_0000
  const UnsignedIntModulus: nat := 0x1_0000_0000

  /** Range of C's int. */
  const IntMin: int := -0x8000_0000
  const IntMax: int := 0x7fff_ffff

  /** I/O ports. */
  const PitChannel2Port: int := 0x42
  const PitControlPort: int := 0x43
  const SystemControlPort: int := 0x61

  /** Control word: channel 2, low byte then high byte, mode 3 (square wave), binary. */
  const Channel2SquareWave: byte := 0xb6

  lemma Channel2SquareWaveFields()
    ensures Channel2SquareWave / 0x40 == 2          // bits 7..6: select counter 2
    ensures Channel2SquareWave / 0x10 % 4 == 3      // bits 5..4: low byte, then high byte
    ensures Channel2SquareWave / 2 % 8 == 3         // bits 3..1: mode 3, square wave generator
    ensures Channel2SquareWave % 2 == 0             // bit 0: binary, not BCD
  {
  }

  /** C's conversion of an int to unsigned long. */
  function ToUnsignedLong(x: int): (u: nat)
    requires IntMin <= x <= IntMax
    ensures u < UnsignedLongModulus
    ensures u % UnsignedLongModulus == x % UnsignedLongModulus
    ensures 0 <= x ==> u == x
  {
    if x < 0 then x + UnsignedLongModulus else x
  }

  lemma MulMonotone(c: int, a: int, b: int)
    requires 0 <= c && a <= b
    ensures c * a <= c * b
  {
  }

  /**
   * `unsigned int count = PIT_TICK_RATE / freq`: the int is converted to
   * unsigned long, divided, and the quotient truncated to unsigned int.
   */
  function Divisor(freq: int): (count: nat)
    requires freq != 0 && IntMin <= freq <= IntMax
    ensures count < UnsignedIntModulus
    ensures 0 < freq ==> count == PitTickRate / freq
    ensures freq < 0 ==> count == 0
  {
    var u := ToUnsignedLong(freq);
    QuotientBounds(PitTickRate, u);
    (PitTickRate / u) % UnsignedIntModulus
  }

  lemma QuotientBounds(a: nat, d: nat)
    requires 0 < d
    ensures a / d <= a
    ensures a < d ==> a / d == 0
  {
    var q := a / d;
    assert q * d <= a;
    MulMonotone(q, 1, d);
  }

  /** For every frequency the handler lets through, the divisor is nonzero and fits in 16 bits. */
  lemma DivisorInRange(freq: int)
    requires 20 <= freq <= 32767
    ensures 36 <= Divisor(freq) <= 59659
    ensures 0 < Divisor(freq) < 0x1_0000
    ensures Divisor(freq) % 0x1_0000 == Divisor(freq) == PitTickRate / freq
  {
    var q := PitTickRate / freq;
    assert q * freq <= PitTickRate < (q + 1) * freq;
    MulMonotone(q, 20, freq);
    MulMonotone(q + 1, freq, 32767);
  }

  /** `count & 0xff` */
  function LowByte(count: nat): (b: byte)
    ensures b as int == count % 0x100
  {
    (count % 0x100) as byte
  }

  /** `(count >> 8) & 0xff` */
  function HighByte(count: nat): (b: byte)
    ensures b as int == (count / 0x100) % 0x100
  {
    ((count / 0x100) % 0x100) as byte
  }

  lemma {:induction false} SplitSixteenBits(count: nat)
    ensures (count / 0x100) % 0x100 * 0x100 + count % 0x100 == count % 0x1_0000
  {
    var q, r := count / 0x100, count % 0x100;
    var qq, qr := q / 0x100, q % 0x100;
    assert count == q * 0x100 + r;
    assert q == qq * 0x100 + qr;
    var low := qr * 0x100 + r;
    assert count == qq * 0x1_0000 + low && 0 <= low < 0x1_0000;
  }

  lemma HighHalfAsInt(c: bv16)
    ensures (c / 0x100) as int == (c as int) / 0x100
  {
  }

  lemma ShiftIsDivide(c: bv16)
    ensures (c >> 8) & 0xff == c / 0x100
  {
  }

  lemma LowHalfAsInt(c: bv16)
    ensures (c & 0xff) as int == (c as int) - 0x100 * ((c / 0x100) as int)
  {
  }

  /** LowByte is the `count & 0xff` of the source, for every 16-bit divisor. */
  lemma LowByteIsBitwiseAnd(c: bv16)
    ensures LowByte(c as int) as int == (c & 0xff) as int
  {
    HighHalfAsInt(c);
    LowHalfAsInt(c);
  }

  /** HighByte is the `(count >> 8) & 0xff` of the source, for every 16-bit divisor. */
  lemma HighByteIsShiftAnd(c: bv16)
    ensures HighByte(c as int) as int == ((c >> 8) & 0xff) as int
  {
    ShiftIsDivide(c);
    HighHalfAsInt(c);
    var n := c as int;
    assert n < 0x1_0000;
    assert HighByte(n) as int == n / 0x100;
  }

  /** The two bytes, high and low, hold exactly the low 16 bits of the count. */
  lemma ByteSplit(count: nat)
    ensures HighByte(count) as int * 0x100 + LowByte(count) as int == count % 0x1_0000
  {
    SplitSixteenBits(count);
  }

  /** A divisor below 2^16 is reconstructed exactly from its two bytes. */
  lemma ByteRoundTrip(count: nat)
    requires count < 0x1_0000
    ensures HighByte(count) as int * 0x100 + LowByte(count) as int == count
  {
    ByteSplit(count);
  }

  /**
   * Bits 0 (timer-2 gate) and 1 (speaker data enable) of port 0x61 are
   * `v % 4`; bits 2..7 are `v / 4`.
   */
  predicate SpeakerBitsSet(v: byte) { v % 4 == 3 }
  predicate SpeakerBitsClear(v: byte) { v % 4 == 0 }
  predicate SameUpperBits(v: byte, w: byte) { v / 4 == w / 4 }

  /** `inb_p(0x61) | 3`: the speaker enabled, bits 2..7 kept. */
  function SpeakerOn(v: byte): (r: byte)
    ensures SpeakerBitsSet(r) && SameUpperBits(r, v)
  {
    v - v % 4 + 3
  }

  /** `inb_p(0x61) & 0xfc`: the speaker disabled, bits 2..7 kept. */
  function SpeakerOff(v: byte): (r: byte)
    ensures SpeakerBitsClear(r) && SameUpperBits(r, v)
  {
    v - v % 4
  }

  /** SpeakerOn is the bitwise `| 3` of the source. */
  lemma SpeakerOnIsBitwiseOr(v: bv8)
    ensures SpeakerOn(v as int as byte) as int == (v | 3) as int
  {
  }

  /** SpeakerOff is the bitwise `& 0xfc` of the source. */
  lemma SpeakerOffIsBitwiseAnd(v: bv8)
    ensures SpeakerOff(v as int as byte) as int == (v & 0xfc) as int
  {
  }

  /** Stopping twice leaves port 0x61 as stopping once does. */
  lemma SpeakerOffIdempotent(v: byte)
    ensures SpeakerOff(SpeakerOff(v)) == SpeakerOff(v)
  {
  }

  /** Start then stop restores port 0x61 with bits 0 and 1 cleared, whatever it held. */
  lemma SpeakerOnThenOff(v: byte)
    ensures SpeakerOff(SpeakerOn(v)) == SpeakerOff(v)
  {
  }
}
