/**
 The per-server frame host (client/apps/desktop/frame-owner.ts): serverFrameHost shifts
 bytes through a wrapping 32-bit integer, and frameOwner accepts a frame only under the
 host of the server it names.
 */
module FrameHost {
  import opened Basics
  import opened Base32Encoding
  import Base32Decoding

  const ALPHABET := "abcdefghijklmnopqrstuvwxyz234567"

  const LABEL_CHARS := 50

  const PREFIX := "studio-"

  const DOMAIN := "localhost"

  lemma {:induction false} AlphabetIsTheTable(i: nat)
    requires i < 32
    ensures ALPHABET[i] == Letter(i)
  {
  }

  function Labels(text: string): string {
    if |text| <= LABEL_CHARS then text else text[..LABEL_CHARS] + "." + Labels(text[LABEL_CHARS..])
  }

  /** None where the source throws: an empty id has no label. */
  function Host(bytes: seq<byte>): Option<string> {
    if bytes == [] then None else Some(PREFIX + Labels(Base32(bytes)) + "." + DOMAIN)
  }

  /** The two nested loops over a wrapping 32-bit word compute the reference encoding. */
  method Encode(bytes: seq<byte>) returns (encoded: string)
    ensures encoded == Base32(bytes)
  {
    var bits, value := 0, 0;
    encoded := "";
    ghost var done: seq<bool>, pending: seq<bool> := [], [];
    var i := 0;
    while i < |bytes|
      invariant 0 <= i <= |bytes| && 0 <= bits < 5 && 0 <= value
      invariant Buffered(Bits(bytes[..i]), done, pending, bits, value, encoded)
    {
      TakeByte(bytes, i, done, pending, bits, value, encoded);
      value := value * 256 % WORD + bytes[i];
      pending := pending + ByteBits(bytes[i]);
      bits := bits + 8;
      i := i + 1;
      while bits >= 5
        invariant 0 <= bits <= 12 && 0 <= value
        invariant Buffered(Bits(bytes[..i]), done, pending, bits, value, encoded)
      {
        ShiftOut(value, pending);
        bits := bits - 5;
        var index := value / Pow2(bits) % 32;
        EmitGroup(Bits(bytes[..i]), done, pending, bits + 5, value, encoded, bits, index);
        AlphabetIsTheTable(index);
        encoded := encoded + [ALPHABET[index]];
        done, pending := done + pending[..5], pending[5..];
      }
    }
    assert bytes[..i] == bytes;
    if bits > 0 {
      var index := value * Pow2(5 - bits) % WORD % 32;
      LastDigit(Bits(bytes), done, pending, bits, value, encoded, index);
      AlphabetIsTheTable(index);
      encoded := encoded + [ALPHABET[index]];
    } else {
      EmitLast(Bits(bytes), done, pending, bits, value, encoded);
    }
  }

  method ServerFrameHost(bytes: seq<byte>) returns (host: Option<string>)
    ensures host == Host(bytes)
  {
    var encoded := Encode(bytes);
    NoDigits(Bits(bytes));
    if encoded == "" {
      return None;
    }
    return Some(PREFIX + Labels(encoded) + "." + DOMAIN);
  }

  // ------------------------------------------------------------------ hosts identify servers

  /** The text with its label separators removed. */
  function Undotted(text: string): string {
    if text == [] then [] else (if text[0] == '.' then [] else [text[0]]) + Undotted(text[1..])
  }

  lemma {:induction false} UndottedAppend(a: string, b: string)
    ensures Undotted(a + b) == Undotted(a) + Undotted(b)
  {
    if a == [] {
      assert a + b == b;
    } else {
      assert (a + b)[1..] == a[1..] + b;
      UndottedAppend(a[1..], b);
    }
  }

  lemma {:induction false} UndottedPlain(text: string)
    requires '.' !in text
    ensures Undotted(text) == text
  {
    if text != [] {
      UndottedPlain(text[1..]);
    }
  }

  lemma {:induction false} LabelsUndotted(text: string)
    requires '.' !in text
    ensures Undotted(Labels(text)) == text
  {
    if |text| <= LABEL_CHARS {
      UndottedPlain(text);
    } else {
      var head, tail := text[..LABEL_CHARS], text[LABEL_CHARS..];
      LabelsUndotted(tail);
      UndottedPlain(head);
      UndottedAppend(head, ".");
      UndottedAppend(head + ".", Labels(tail));
      assert Undotted(".") == [];
    }
  }

  lemma {:induction false} NoDots(bits: seq<bool>)
    ensures '.' !in Digits(bits)
    decreases |bits|
  {
    if |bits| >= 5 {
      NoDots(bits[5..]);
    }
  }

  lemma {:induction false} HostText(bytes: seq<byte>)
    requires bytes != []
    ensures Undotted(Host(bytes).value) == PREFIX + Base32(bytes) + DOMAIN
  {
    NoDots(Bits(bytes));
    NamedText(PREFIX, Base32(bytes), DOMAIN);
  }

  lemma {:induction false} NamedText(prefix: string, text: string, suffix: string)
    requires '.' !in prefix && '.' !in text && '.' !in suffix
    ensures Undotted(prefix + Labels(text) + "." + suffix) == prefix + text + suffix
  {
    var labels := Labels(text);
    LabelsUndotted(text);
    UndottedPlain(prefix);
    UndottedPlain(suffix);
    UndottedAppend(prefix, labels);
    DotDropped(prefix + labels, suffix);
  }

  lemma {:induction false} DotDropped(a: string, b: string)
    ensures Undotted(a + "." + b) == Undotted(a) + Undotted(b)
  {
    UndottedAppend(a, ".");
    UndottedAppend(a + ".", b);
    assert Undotted(".") == [];
    assert Undotted(a) + [] == Undotted(a);
  }

  /** Different ids never share a host. */
  lemma {:induction false} HostsAreInjective(a: seq<byte>, b: seq<byte>)
    requires Host(a).Some? && Host(a) == Host(b)
    ensures a == b
  {
    HostText(a);
    HostText(b);
    Middle(PREFIX, Base32(a), Base32(b), DOMAIN);
    Base32Decoding.DecodeEncode(a);
    Base32Decoding.DecodeEncode(b);
  }

  lemma {:induction false} Middle(prefix: string, a: string, b: string, suffix: string)
    requires prefix + a + suffix == prefix + b + suffix
    ensures a == b
  {
    assert |a| == |b|;
    assert (prefix + a + suffix)[|prefix|..|prefix| + |a|] == a;
    assert (prefix + b + suffix)[|prefix|..|prefix| + |b|] == b;
  }

  // ------------------------------------------------------------------ name lengths

  /** Every label between dots has at most `most` characters, the first one after `used` more. */
  predicate ShortLabels(text: string, used: nat, most: nat) {
    if text == [] then used <= most
    else if text[0] == '.' then used <= most && ShortLabels(text[1..], 0, most)
    else ShortLabels(text[1..], used + 1, most)
  }

  lemma {:induction false} PlainLabel(text: string, used: nat, most: nat, rest: string)
    requires '.' !in text && used + |text| <= most
    requires rest == [] || (rest[0] == '.' && ShortLabels(rest[1..], 0, most))
    ensures ShortLabels(text + rest, used, most)
  {
    if text == [] {
      assert text + rest == rest;
    } else {
      assert (text + rest)[1..] == text[1..] + rest;
      PlainLabel(text[1..], used + 1, most, rest);
    }
  }

  lemma {:induction false} LabelsShort(text: string, used: nat, most: nat, rest: string)
    requires '.' !in text && used + LABEL_CHARS <= most
    requires rest == [] || (rest[0] == '.' && ShortLabels(rest[1..], 0, most))
    ensures ShortLabels(Labels(text) + rest, used, most)
    ensures |Labels(text)| == |text| + (if text == [] then 0 else (|text| - 1) / LABEL_CHARS)
    decreases |text|
  {
    if |text| <= LABEL_CHARS {
      PlainLabel(text, used, most, rest);
    } else {
      var head, tail := text[..LABEL_CHARS], text[LABEL_CHARS..];
      LabelsShort(tail, 0, most, rest);
      var next := "." + Labels(tail) + rest;
      assert next[1..] == Labels(tail) + rest;
      PlainLabel(head, used, most, next);
      assert Labels(text) + rest == head + next;
    }
  }

  /** An id of 1 to 128 bytes gives labels of at most 63 octets and a name of at most 255 octets
      on the wire (section 2.3.4 of RFC 1035), one length octet per label and the root included. */
  lemma {:induction false} HostFits(bytes: seq<byte>)
    requires 1 <= |bytes| <= 128
    ensures Host(bytes).Some?
    ensures ShortLabels(Host(bytes).value, 0, 63)
    ensures |Host(bytes).value| + 2 <= 255
  {
    var text := Base32(bytes);
    var rest := "." + DOMAIN;
    NoDots(Bits(bytes));
    Base32Decoding.DigitsLength(Bits(bytes));
    assert rest[1..] == DOMAIN && DOMAIN + [] == DOMAIN;
    PlainLabel(DOMAIN, 0, 63, []);
    LabelsShort(text, |PREFIX|, 63, rest);
    PrefixLabel(PREFIX, Labels(text) + rest, 63);
    assert PREFIX + (Labels(text) + rest) == PREFIX + Labels(text) + "." + DOMAIN;
  }

  lemma {:induction false} PrefixLabel(prefix: string, rest: string, most: nat)
    requires '.' !in prefix && ShortLabels(rest, |prefix|, most)
    ensures ShortLabels(prefix + rest, 0, most)
  {
    PrefixFrom(prefix, 0, rest, most);
  }

  lemma {:induction false} PrefixFrom(prefix: string, used: nat, rest: string, most: nat)
    requires '.' !in prefix && ShortLabels(rest, used + |prefix|, most)
    ensures ShortLabels(prefix + rest, used, most)
  {
    if prefix == [] {
      assert prefix + rest == rest;
    } else {
      assert (prefix + rest)[1..] == prefix[1..] + rest;
      PrefixFrom(prefix[1..], used + 1, rest, most);
    }
  }

  // ------------------------------------------------------------------ the owner of a frame

  /** A parsed URL; `query` lists its search parameters in order. */
  datatype Url = Url(protocol: string, port: string, hostname: string, pathname: string, hash: string,
                     username: string, password: string, query: seq<(string, string)>)

  function Values(query: seq<(string, string)>, key: string): seq<string> {
    if query == [] then []
    else (if query[0].0 == key then [query[0].1] else []) + Values(query[1..], key)
  }

  predicate IdChar(c: char) {
    'a' <= c <= 'z' || 'A' <= c <= 'Z' || '0' <= c <= '9' || c == '_' || c == '-'
  }

  predicate ServerId(id: string) {
    1 <= |id| <= 128 && forall c <- id :: IdChar(c)
  }

  function AsciiByte(c: char): byte {
    if c < 128 as char then c as int else 0
  }

  /** UTF-8 of an id, which is ASCII. */
  function Utf8(id: string): (r: seq<byte>)
    requires ServerId(id)
    ensures |r| == |id|
  {
    seq(|id|, i requires 0 <= i < |id| => AsciiByte(id[i]))
  }

  const KNOWN_KEYS := {"studio-server", "studio-parent", "studio-origin", "studio-credential", "studio-navigation"}

  /** The server that owns a frame; None where the source returns undefined. */
  function FrameOwner(url: Url, base: Url, shellOrigin: string): Option<string> {
    var owners := Values(url.query, "studio-server");
    var parents := Values(url.query, "studio-parent");
    var navigation := Values(url.query, "studio-navigation");
    if owners == [] || !ServerId(owners[0]) || url.pathname != "/" || url.hash != "" || url.username != ""
       || url.password != "" then None
    else if url.protocol != base.protocol || url.port != base.port || Some(url.hostname) != Host(Utf8(owners[0]))
            || parents == [] || parents[0] != shellOrigin then None
    else if |navigation| > 1 || (exists mode <- navigation :: mode != "classic" && mode != "combined") then None
    else if exists entry <- url.query :: entry.0 !in KNOWN_KEYS then None
    else Some(owners[0])
  }

  /** Frames of one host belong to one server, so no server reads another's origin. */
  lemma {:induction false} HostHasOneOwner(a: Url, b: Url, baseA: Url, baseB: Url, shellA: string, shellB: string)
    requires FrameOwner(a, baseA, shellA).Some? && FrameOwner(b, baseB, shellB).Some?
    ensures a.hostname == b.hostname <==> FrameOwner(a, baseA, shellA) == FrameOwner(b, baseB, shellB)
  {
    var x, y := FrameOwner(a, baseA, shellA).value, FrameOwner(b, baseB, shellB).value;
    if a.hostname == b.hostname {
      HostsAreInjective(Utf8(x), Utf8(y));
      SameText(x, y);
    }
  }

  lemma {:induction false} SameText(x: string, y: string)
    requires ServerId(x) && ServerId(y) && Utf8(x) == Utf8(y)
    ensures x == y
  {
    forall i | 0 <= i < |x|
      ensures x[i] == y[i]
    {
      assert Utf8(x)[i] == Utf8(y)[i] && IdChar(x[i]) && IdChar(y[i]);
    }
  }
}
