/** Decoding Base 32 text recovers the bytes, so the encoding loses nothing. */
module Base32Decoding {
  import opened Base32Encoding

  /** Where a character stands in the alphabet: letters first, then the digits 2 to 7. */
  function IndexOf(c: char): nat {
    if 'a' <= c <= 'z' then (c - 'a') as nat else if '2' <= c <= '7' then 26 + (c - '2') as nat else 0
  }

  function GroupBits(n: nat): (r: seq<bool>)
    ensures |r| == 5
  {
    var n1 := n / 2;
    var n2 := n1 / 2;
    var n3 := n2 / 2;
    [n3 / 2 == 1, n3 % 2 == 1, n2 % 2 == 1, n1 % 2 == 1, n % 2 == 1]
  }

  function TextBits(text: string): (r: seq<bool>)
    ensures |r| == 5 * |text|
  {
    if text == [] then [] else GroupBits(IndexOf(text[0])) + TextBits(text[1..])
  }

  /** Whole bytes only: trailing bits that fill the last character are dropped. */
  function BytesOf(bits: seq<bool>): seq<nat> {
    if |bits| < 8 then [] else [Value(bits[..8])] + BytesOf(bits[8..])
  }

  function Decode(text: string): seq<nat> {
    BytesOf(TextBits(text))
  }

  lemma {:induction false} LetterIndex(i: nat)
    requires i < 32
    ensures IndexOf(Letter(i)) == i
  {
  }

  lemma {:induction false} ValueInjective(a: seq<bool>, b: seq<bool>)
    requires |a| == |b| && Value(a) == Value(b)
    ensures a == b
  {
    if a != [] {
      ValueInjective(a[..|a| - 1], b[..|b| - 1]);
      assert a == a[..|a| - 1] + [a[|a| - 1]] && b == b[..|b| - 1] + [b[|b| - 1]];
    }
  }

  lemma {:induction false} GroupValue(n: nat)
    requires n < 32
    ensures Value(GroupBits(n)) == n
  {
    var r := GroupBits(n);
    var n1 := n / 2;
    var n2 := n1 / 2;
    var n3 := n2 / 2;
    assert Value(r[..0]) == 0;
    NextBit(r, 0, 0);
    NextBit(r, 1, n3 / 2);
    NextBit(r, 2, n3);
    NextBit(r, 3, n2);
    NextBit(r, 4, n1);
    assert r[..5] == r;
  }

  lemma {:induction false} DigitRoundTrip(group: seq<bool>)
    requires |group| == 5
    ensures GroupBits(IndexOf(Digit(group))) == group
  {
    var v := Value(group);
    SameDigit(group, v);
    LetterIndex(v);
    GroupValue(v);
    ValueInjective(GroupBits(v), group);
  }

  function Filler(n: nat): nat {
    if n % 5 == 0 then 0 else 5 - n % 5
  }

  lemma {:induction false} TextStep(bits: seq<bool>, fill: seq<bool>)
    requires |bits| >= 5 && TextBits(Digits(bits[5..])) == bits[5..] + fill
    ensures TextBits(Digits(bits)) == bits + fill
  {
    FirstDigit(bits);
    DigitRoundTrip(bits[..5]);
    TextCons(Digit(bits[..5]), Digits(bits[5..]));
    assert bits[..5] + (bits[5..] + fill) == bits + fill;
  }

  lemma {:induction false} TextCons(c: char, rest: string)
    ensures TextBits([c] + rest) == GroupBits(IndexOf(c)) + TextBits(rest)
  {
    assert ([c] + rest)[1..] == rest;
  }

  lemma {:induction false} TextEnd(bits: seq<bool>)
    requires 0 < |bits| < 5
    ensures TextBits(Digits(bits)) == bits + Zeros(5 - |bits|)
  {
    var group := bits + Zeros(5 - |bits|);
    DigitRoundTrip(group);
    TextCons(Digit(group), []);
    assert [Digit(group)] + [] == [Digit(group)];
    assert group + [] == group;
  }

  lemma {:induction false} FillerStep(n: nat)
    ensures Filler(n + 5) == Filler(n)
  {
  }

  /** Reading the text back gives the bits, followed by the zero bits of the last group. */
  lemma {:induction false} TextRoundTrip(bits: seq<bool>)
    ensures TextBits(Digits(bits)) == bits + Zeros(Filler(|bits|))
    decreases |bits|
  {
    if |bits| >= 5 {
      FillerStep(|bits| - 5);
      TextRoundTrip(bits[5..]);
      TextStep(bits, Zeros(Filler(|bits|)));
    } else if bits != [] {
      TextEnd(bits);
    }
  }

  lemma {:induction false} BitsSnoc(front: seq<byte>, b: byte)
    ensures Bits(front + [b]) == Bits(front) + ByteBits(b)
  {
    assert (front + [b])[..|front|] == front;
  }

  lemma {:induction false} Associate(x: seq<bool>, y: seq<bool>, z: seq<bool>)
    ensures x + y + z == x + (y + z)
  {
  }

  lemma {:induction false} BitsCons(b: byte, rest: seq<byte>)
    ensures Bits([b] + rest) == ByteBits(b) + Bits(rest)
  {
    if rest == [] {
      BitsSnoc([], b);
      assert [] + [b] == [b] + rest;
      assert [] + ByteBits(b) == ByteBits(b) + [];
    } else {
      var front, last := rest[..|rest| - 1], rest[|rest| - 1];
      BitsCons(b, front);
      BitsSnoc([b] + front, last);
      assert [b] + front + [last] == [b] + rest;
      Associate(ByteBits(b), Bits(front), ByteBits(last));
    }
  }

  lemma {:induction false} BytesRoundTrip(bytes: seq<byte>, fill: seq<bool>)
    requires |fill| < 8
    ensures BytesOf(Bits(bytes) + fill) == bytes
  {
    if bytes == [] {
      assert [] + fill == fill;
    } else {
      var b, rest := bytes[0], bytes[1..];
      assert bytes == [b] + rest;
      BitsCons(b, rest);
      ByteValue(b);
      BytesRoundTrip(rest, fill);
      var all := Bits(bytes) + fill;
      assert all[..8] == ByteBits(b) && all[8..] == Bits(rest) + fill;
    }
  }

  /** Decoding undoes the encoding for every byte string. */
  lemma {:induction false} DecodeEncode(bytes: seq<byte>)
    ensures Decode(Base32(bytes)) == bytes
  {
    TextRoundTrip(Bits(bytes));
    BytesRoundTrip(bytes, Zeros(Filler(|Bits(bytes)|)));
  }

  lemma {:induction false} DigitsLength(bits: seq<bool>)
    ensures |Digits(bits)| == (|bits| + 4) / 5
    decreases |bits|
  {
    if |bits| >= 5 {
      DigitsLength(bits[5..]);
    }
  }
}
