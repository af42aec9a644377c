/**
 The Base 32 encoding of section 6 of RFC 4648, lowercase and without padding, over
 explicit bits, and the arithmetic of a wrapping 32-bit word that computes it.
 */
module Base32Encoding {

  type byte = b: int | 0 <= b < 256

  /** Size of the wrapping integer. */
  const WORD := 0x1_0000_0000

  // ------------------------------------------------------------------ the reference

  function Unit(bit: bool): nat {
    if bit then 1 else 0
  }

  /** The number that a big-endian bit string denotes. */
  function Value(bits: seq<bool>): nat {
    if bits == [] then 0 else 2 * Value(bits[..|bits| - 1]) + Unit(bits[|bits| - 1])
  }

  function ByteBits(b: byte): (r: seq<bool>)
    ensures |r| == 8
  {
    var b1 := b / 2;
    var b2 := b1 / 2;
    var b3 := b2 / 2;
    var b4 := b3 / 2;
    var b5 := b4 / 2;
    var b6 := b5 / 2;
    [b6 / 2 == 1, b6 % 2 == 1, b5 % 2 == 1, b4 % 2 == 1, b3 % 2 == 1, b2 % 2 == 1, b1 % 2 == 1, b % 2 == 1]
  }

  function Bits(bytes: seq<byte>): (r: seq<bool>)
    ensures |r| == 8 * |bytes|
  {
    if bytes == [] then [] else Bits(bytes[..|bytes| - 1]) + ByteBits(bytes[|bytes| - 1])
  }

  function Zeros(n: nat): (r: seq<bool>)
    ensures |r| == n
  {
    seq(n, _ => false)
  }

  /** Table 3 of RFC 4648 in lower case: letters for 0 to 25, then the digits 2 to 7. */
  function Letter(i: nat): char
    requires i < 32
  {
    if i < 26 then 'a' + i as char else '2' + (i - 26) as char
  }

  /** The character of a group of five bits. */
  function Digit(group: seq<bool>): char {
    Letter(Value(group) % 32)
  }

  /** Five bits per character, the last group filled with zero bits. */
  function Digits(bits: seq<bool>): string {
    if bits == [] then []
    else if |bits| < 5 then [Digit(bits + Zeros(5 - |bits|))]
    else [Digit(bits[..5])] + Digits(bits[5..])
  }

  function Base32(bytes: seq<byte>): string {
    Digits(Bits(bytes))
  }

  // ------------------------------------------------------------------ bits and arithmetic

  function Pow2(n: nat): (r: nat)
    ensures r > 0
  {
    if n == 0 then 1 else 2 * Pow2(n - 1)
  }

  lemma {:induction false} ValueBound(bits: seq<bool>)
    ensures Value(bits) < Pow2(|bits|)
    ensures |bits| == 5 ==> Value(bits) < 32
  {
    if bits != [] {
      ValueBound(bits[..|bits| - 1]);
    }
    Powers();
  }

  lemma {:induction false} Powers()
    ensures Pow2(0) == 1 && Pow2(1) == 2 && Pow2(2) == 4 && Pow2(3) == 8 && Pow2(4) == 16 && Pow2(5) == 32
    ensures Pow2(6) == 64 && Pow2(7) == 128 && Pow2(8) == 256 && Pow2(9) == 512 && Pow2(10) == 1024
    ensures Pow2(11) == 2048 && Pow2(12) == 4096
  {
    assert Pow2(5) == 32;
    assert Pow2(8) == 256;
    assert Pow2(10) == 1024;
  }

  lemma {:induction false} ValueAppend(a: seq<bool>, b: seq<bool>)
    ensures Value(a + b) == Value(a) * Pow2(|b|) + Value(b)
  {
    if b == [] {
      assert a + b == a;
    } else {
      var front := b[..|b| - 1];
      assert (a + b)[..|a + b| - 1] == a + front;
      ValueAppend(a, front);
      TwiceProduct(Value(a), Pow2(|front|), Pow2(|b|));
    }
  }

  lemma {:induction false} TwiceProduct(x: nat, p: nat, q: nat)
    requires q == 2 * p
    ensures x * q == 2 * (x * p)
  {
  }

  lemma {:induction false} HighValue(b: byte)
    ensures Value(ByteBits(b)[..4]) == b / 2 / 2 / 2 / 2
  {
    var r := ByteBits(b);
    assert Value(r[..0]) == 0;
    var b4 := b / 2 / 2 / 2 / 2;
    NextBit(r, 0, 0);
    NextBit(r, 1, b4 / 2 / 2 / 2);
    NextBit(r, 2, b4 / 2 / 2);
    NextBit(r, 3, b4 / 2);
  }

  lemma {:induction false} ByteValue(b: byte)
    ensures Value(ByteBits(b)) == b
  {
    var r := ByteBits(b);
    HighValue(b);
    NextBit(r, 4, b / 2 / 2 / 2 / 2);
    NextBit(r, 5, b / 2 / 2 / 2);
    NextBit(r, 6, b / 2 / 2);
    NextBit(r, 7, b / 2);
    assert r[..8] == r;
  }

  lemma {:induction false} NextBit(bits: seq<bool>, n: nat, value: nat)
    requires n < |bits| && Value(bits[..n]) == value
    ensures Value(bits[..n + 1]) == 2 * value + Unit(bits[n])
  {
    assert bits[..n + 1][..n] == bits[..n];
  }

  lemma {:induction false} ValueZeros(n: nat)
    ensures Value(Zeros(n)) == 0
  {
    if n > 0 {
      assert Zeros(n)[..n - 1] == Zeros(n - 1);
      ValueZeros(n - 1);
    }
  }

  /** Shifting a byte into the word keeps the pending bits at its low end. */
  lemma {:induction false} ShiftIn(value: nat, pending: seq<bool>, b: byte)
    requires |pending| < 5 && value % Pow2(|pending|) == Value(pending)
    ensures (value * 256 % WORD + b) % Pow2(|pending| + 8) == Value(pending + ByteBits(b))
    ensures value * 256 % WORD + b < WORD
  {
    Powers();
    ValueAppend(pending, ByteBits(b));
    ByteValue(b);
    ValueBound(pending);
    ShiftArithmetic(value, |pending|, Value(pending), b);
  }

  /** Quotient and remainder are unique. */
  lemma {:induction false} DivMod(a: nat, d: nat, q: int, r: nat)
    requires d > 0 && r < d && a == q * d + r
    ensures a / d == q && a % d == r
  {
    var q1, r1 := a / d, a % d;
    SameQuotient(q, r, q1, r1, d);
  }

  lemma {:induction false} SameQuotient(q: int, r: nat, q1: int, r1: nat, d: nat)
    requires r < d && r1 < d && q * d + r == q1 * d + r1
    ensures q == q1
  {
    var x := q - q1;
    assert x * d == r1 - r;
    AtLeast(x, d);
  }

  lemma {:induction false} AtLeast(x: int, d: nat)
    ensures x >= 1 ==> x * d >= d
    ensures x <= -1 ==> x * d + d <= 0
  {
  }

  /** The wrap-around at WORD only drops multiples of the modulus. */
  lemma {:induction false} ShiftModulus(value: nat, m: nat, c: nat, low: nat, b: byte)
    requires 0 < m && WORD == c * (256 * m) && value % m == low
    ensures (value * 256 % WORD + b) % (256 * m) == low * 256 + b
  {
    var q, k, d := value / m, value * 256 / WORD, 256 * m;
    assert value == q * m + low;
    assert value * 256 == q * d + low * 256 by {
      assert (q * m) * 256 == q * (m * 256);
    }
    assert value * 256 % WORD == value * 256 - k * WORD;
    assert k * WORD == (k * c) * d;
    var x := value * 256 % WORD + b;
    assert x == (q - k * c) * d + (low * 256 + b);
    DivMod(x, d, q - k * c, low * 256 + b);
  }

  lemma {:induction false} ShiftArithmetic(value: nat, n: nat, low: nat, b: byte)
    requires n < 5 && value % Pow2(n) == low
    ensures (value * 256 % WORD + b) % Pow2(n + 8) == low * 256 + b
    ensures value * 256 % WORD + b < WORD
  {
    Powers();
    var m := Pow2(n);
    var c := if n == 0 then 0x100_0000 else if n == 1 then 0x80_0000 else if n == 2 then 0x40_0000
             else if n == 3 then 0x20_0000 else 0x10_0000;
    ShiftModulus(value, m, c, low, b);
    WordRoom(value);
  }

  lemma {:induction false} WordRoom(value: nat)
    ensures value * 256 % WORD + 255 < WORD
  {
    var k := value * 256 / WORD;
    assert value * 256 % WORD == 256 * (value - k * 0x100_0000);
  }

  /** Five bits leave the word from the top of the pending ones. */
  lemma {:induction false} ShiftOut(value: nat, pending: seq<bool>)
    requires 5 <= |pending| <= 12 && value % Pow2(|pending|) == Value(pending)
    ensures value / Pow2(|pending| - 5) % 32 == Value(pending[..5])
    ensures value % Pow2(|pending| - 5) == Value(pending[5..])
  {
    var head, tail := pending[..5], pending[5..];
    assert pending == head + tail;
    ValueAppend(head, tail);
    ValueBound(head);
    ValueBound(tail);
    OutArithmetic(value, |tail|, Value(head), Value(tail));
  }

  lemma {:induction false} OutArithmetic(value: nat, n: nat, head: nat, tail: nat)
    requires n <= 7 && head < 32 && tail < Pow2(n) && value % Pow2(n + 5) == head * Pow2(n) + tail
    ensures value / Pow2(n) % 32 == head
    ensures value % Pow2(n) == tail
  {
    FivePowers(n);
    OutModulus(value, Pow2(n), head, tail);
  }

  lemma {:induction false} FivePowers(n: nat)
    ensures Pow2(n + 5) == 32 * Pow2(n)
  {
    assert Pow2(n + 5) == 2 * Pow2(n + 4) && Pow2(n + 4) == 2 * Pow2(n + 3) && Pow2(n + 3) == 2 * Pow2(n + 2);
    assert Pow2(n + 2) == 2 * Pow2(n + 1) && Pow2(n + 1) == 2 * Pow2(n);
  }

  lemma {:induction false} OutModulus(value: nat, m: nat, head: nat, tail: nat)
    requires head < 32 && tail < m && value % (32 * m) == head * m + tail
    ensures value / m % 32 == head
    ensures value % m == tail
  {
    var q := Recompose(value, m, head, tail);
    DivMod(value, m, 32 * q + head, tail);
    assert (32 * q + head) % 32 == head;
  }

  lemma {:induction false} Recompose(value: nat, m: nat, head: nat, tail: nat) returns (q: nat)
    requires m > 0 && value % (32 * m) == head * m + tail
    ensures value == (32 * q + head) * m + tail
  {
    q := value / (32 * m);
    Distribute(q, m, head);
    assert value == q * (32 * m) + value % (32 * m);
  }

  lemma {:induction false} Distribute(q: nat, m: nat, head: nat)
    ensures q * (32 * m) + head * m == (32 * q + head) * m
  {
    assert q * (32 * m) == (32 * q) * m;
  }

  lemma {:induction false} FirstDigit(bits: seq<bool>)
    requires |bits| >= 5
    ensures Digits(bits) == [Digit(bits[..5])] + Digits(bits[5..])
  {
  }

  lemma {:induction false} Regroup(x: string, y: string, z: string)
    ensures x + (y + z) == x + y + z
  {
  }

  lemma {:induction false} DigitsAppend(a: seq<bool>, b: seq<bool>)
    requires |a| % 5 == 0
    ensures Digits(a + b) == Digits(a) + Digits(b)
    decreases |a|
  {
    if |a| < 5 {
      assert a == [] && a + b == b;
    } else {
      assert (a + b)[..5] == a[..5] && (a + b)[5..] == a[5..] + b;
      FirstDigit(a + b);
      FirstDigit(a);
      DigitsAppend(a[5..], b);
      Regroup([Digit(a[..5])], Digits(a[5..]), Digits(b));
    }
  }

  // ------------------------------------------------------------------ the encoder

  /** What the loops hold after reading `input`: whole groups written, the rest pending in the word. */
  predicate Buffered(input: seq<bool>, done: seq<bool>, pending: seq<bool>, bits: nat, value: nat, encoded: string) {
    && input == done + pending && |done| % 5 == 0 && |pending| == bits
    && value < WORD && value % Pow2(bits) == Value(pending)
    && encoded == Digits(done)
  }

  lemma {:induction false} TakeByte(bytes: seq<byte>, i: nat, done: seq<bool>, pending: seq<bool>, bits: nat,
                                    value: nat,
                                    encoded: string)
    requires i < |bytes| && bits < 5 && Buffered(Bits(bytes[..i]), done, pending, bits, value, encoded)
    ensures Buffered(Bits(bytes[..i + 1]), done, pending + ByteBits(bytes[i]), bits + 8,
                     value * 256 % WORD + bytes[i], encoded)
  {
    ShiftIn(value, pending, bytes[i]);
    NextBits(bytes, i, done, pending);
  }

  lemma {:induction false} EmitGroup(input: seq<bool>, done: seq<bool>, pending: seq<bool>, bits: nat, value: nat,
                                     encoded: string, rest: nat, index: nat)
    requires bits == rest + 5 && Buffered(input, done, pending, bits, value, encoded)
    requires value % Pow2(rest) == Value(pending[5..]) && index == Value(pending[..5])
    ensures index < 32
    ensures Buffered(input, done + pending[..5], pending[5..], rest, value, encoded + [Letter(index)])
  {
    MoveGroup(done, pending);
    SameDigit(pending[..5], index);
  }

  lemma {:induction false} SameDigit(group: seq<bool>, index: nat)
    requires |group| == 5 && index == Value(group)
    ensures index < 32 && Letter(index) == Digit(group)
  {
    ValueBound(group);
  }

  lemma {:induction false} EmitLast(input: seq<bool>, done: seq<bool>, pending: seq<bool>, bits: nat, value: nat,
                                    encoded: string)
    requires bits < 5 && Buffered(input, done, pending, bits, value, encoded)
    ensures Digits(input) == if bits == 0 then encoded else encoded + [Digit(pending + Zeros(5 - bits))]
  {
    DigitsAppend(done, pending);
  }

  lemma {:induction false} NextBits(bytes: seq<byte>, i: nat, done: seq<bool>, pending: seq<bool>)
    requires i < |bytes| && Bits(bytes[..i]) == done + pending
    ensures Bits(bytes[..i + 1]) == done + (pending + ByteBits(bytes[i]))
  {
    assert bytes[..i + 1][..i] == bytes[..i];
    assert done + pending + ByteBits(bytes[i]) == done + (pending + ByteBits(bytes[i]));
  }

  lemma {:induction false} MoveGroup(done: seq<bool>, pending: seq<bool>)
    requires |done| % 5 == 0 && |pending| >= 5
    ensures done + pending == (done + pending[..5]) + pending[5..]
    ensures Digits(done + pending[..5]) == Digits(done) + [Digit(pending[..5])]
  {
    var group := pending[..5];
    assert pending == group + pending[5..];
    DigitsAppend(done, group);
    assert group[..5] == group && group[5..] == [];
  }

  lemma {:induction false} LastGroup(value: nat, pending: seq<bool>)
    requires 0 < |pending| < 5 && value % Pow2(|pending|) == Value(pending)
    ensures value * Pow2(5 - |pending|) % WORD % 32 == Value(pending + Zeros(5 - |pending|)) < 32
  {
    var n := 5 - |pending|;
    ValueAppend(pending, Zeros(n));
    ValueZeros(n);
    ValueBound(pending);
    LastArithmetic(value, |pending|, Value(pending));
  }

  /** The word's last pending bits, shifted up, select the character of the filled group. */
  lemma {:induction false} LastDigit(input: seq<bool>, done: seq<bool>, pending: seq<bool>, bits: nat, value: nat,
                                     encoded: string, index: nat)
    requires 0 < bits < 5 && Buffered(input, done, pending, bits, value, encoded)
    requires index == value * Pow2(5 - bits) % WORD % 32
    ensures encoded + [Letter(index)] == Digits(input)
  {
    EmitLast(input, done, pending, bits, value, encoded);
    LastGroup(value, pending);
    SameDigit(pending + Zeros(5 - bits), index);
  }

  lemma {:induction false} LastArithmetic(value: nat, n: nat, low: nat)
    requires 0 < n < 5 && low < Pow2(n) && value % Pow2(n) == low
    ensures value * Pow2(5 - n) % WORD % 32 == low * Pow2(5 - n)
  {
    Powers();
    var m, p := Pow2(n), Pow2(5 - n);
    assert m * p == 32;
    var q, k := value / m, value * p / WORD;
    assert value == q * m + low;
    assert value * p == q * 32 + low * p by {
      assert q * m * p == q * (m * p);
    }
    var x := value * p % WORD;
    assert x == value * p - k * WORD;
    assert x == (q - k * 0x800_0000) * 32 + low * p;
    assert low * p < 32;
    DivMod(x, 32, q - k * 0x800_0000, low * p);
  }

  lemma {:induction false} NoDigits(bits: seq<bool>)
    ensures Digits(bits) == [] <==> bits == []
  {
  }
}
