/** Decoding of the port attributes of a stream in wasmplugin/plugin.go. */
module Port {
  /** A byte, as the number it stands for. */
  type Octet = n: nat | n < 256

  datatype PortResult = Port(number: nat) | NotFound | ConversionError

  const MAX_INT32 := 0x7FFF_FFFF

  /** The number whose little-endian bytes are `b`. */
  function LittleEndian(b: seq<Octet>): nat {
    if b == [] then 0 else b[0] + 256 * LittleEndian(b[1..])
  }

  /** The first eight bytes are an unsigned 64-bit number; anything after them is ignored. */
  function ParsePort(b: seq<Octet>): PortResult {
    if |b| < 8 then NotFound
    else
      var n := LittleEndian(b[..8]);
      if n > MAX_INT32 then ConversionError else Port(n)
  }

  /** The `width` little-endian bytes of `n` modulo 2^(8 * width). */
  function Encode(n: nat, width: nat): seq<Octet> {
    if width == 0 then [] else [n % 256] + Encode(n / 256, width - 1)
  }

  function Span(width: nat): nat {
    if width == 0 then 1 else 256 * Span(width - 1)
  }

  lemma Prepend(low: Octet, rest: seq<Octet>)
    ensures LittleEndian([low] + rest) == low + 256 * LittleEndian(rest)
  {
    assert ([low] + rest)[1..] == rest;
  }

  lemma {:induction false} DecodeEncode(n: nat, width: nat)
    requires n < Span(width)
    ensures |Encode(n, width)| == width && LittleEndian(Encode(n, width)) == n
  {
    if width > 0 {
      DecodeEncode(n / 256, width - 1);
      Prepend(n % 256, Encode(n / 256, width - 1));
    }
  }

  lemma {:induction false} EncodeDecode(b: seq<Octet>)
    ensures LittleEndian(b) < Span(|b|) && Encode(LittleEndian(b), |b|) == b
  {
    if b != [] {
      EncodeDecode(b[1..]);
      var n := LittleEndian(b);
      assert n % 256 == b[0] && n / 256 == LittleEndian(b[1..]);
      assert b == [b[0]] + b[1..];
    }
  }

  lemma SpanOfEight()
    ensures Span(8) == 0x1_0000_0000_0000_0000
  {
    assert Span(4) == 256 * Span(3) == 256 * 256 * Span(2) == 256 * 256 * 256 * Span(1) == 0x1_0000_0000;
    assert Span(8) == 256 * Span(7) == 256 * 256 * Span(6) == 256 * 256 * 256 * Span(5) == 0x1_0000_0000 * Span(4);
  }

  /** Whatever follows the eight bytes, exactly the numbers up to 2^31 - 1 come back; larger ones are refused. */
  lemma PortRoundTrip(n: nat, rest: seq<Octet>)
    requires n < 0x1_0000_0000_0000_0000
    ensures ParsePort(Encode(n, 8) + rest) == if n <= MAX_INT32 then Port(n) else ConversionError
  {
    SpanOfEight();
    DecodeEncode(n, 8);
    assert (Encode(n, 8) + rest)[..8] == Encode(n, 8);
  }

  /** An input decodes to `n` exactly when it starts with the eight bytes of `n`. */
  lemma ParsedIff(b: seq<Octet>, n: nat)
    ensures ParsePort(b) == Port(n) <==> |b| >= 8 && n <= MAX_INT32 && b[..8] == Encode(n, 8)
    ensures ParsePort(b) == NotFound <==> |b| < 8
  {
    if |b| >= 8 {
      EncodeDecode(b[..8]);
      if n <= MAX_INT32 {
        SpanOfEight();
        DecodeEncode(n, 8);
      }
    }
  }

  lemma FourBytes(b: seq<Octet>)
    requires |b| == 4
    ensures LittleEndian(b) == b[0] as int + 0x100 * (b[1] as int) + 0x1_0000 * (b[2] as int) + 0x100_0000 * (b[3] as int)
  {
    assert b[1..][1..] == b[2..] && b[2..][1..] == b[3..] && b[3..][1..] == [];
    assert LittleEndian(b[3..]) == b[3];
    assert LittleEndian(b[2..]) == b[2] as int + 0x100 * (b[3] as int);
    assert LittleEndian(b[1..]) == b[1] as int + 0x100 * (b[2] as int + 0x100 * (b[3] as int));
  }

  lemma LowAndHigh(b: seq<Octet>)
    requires |b| == 8
    ensures LittleEndian(b) == LittleEndian(b[..4]) + 0x1_0000_0000 * LittleEndian(b[4..])
  {
    FourBytes(b[..4]);
    assert b[1..][1..] == b[2..] && b[2..][1..] == b[3..] && b[3..][1..] == b[4..];
    assert LittleEndian(b[3..]) == b[3] + 0x100 * LittleEndian(b[4..]);
    assert LittleEndian(b[2..]) == b[2] + 0x100 * LittleEndian(b[3..]);
    assert LittleEndian(b[1..]) == b[1] + 0x100 * LittleEndian(b[2..]);
  }

  lemma {:induction false} ZeroIff(b: seq<Octet>)
    ensures LittleEndian(b) == 0 <==> forall i :: 0 <= i < |b| ==> b[i] == 0
  {
    if b != [] {
      ZeroIff(b[1..]);
      assert forall i :: 0 < i < |b| ==> b[i] == b[1..][i - 1];
    }
  }

  /** Byte by byte: a port is in the low four bytes, its top bit and the high four bytes are clear. */
  lemma ParsedBytes(b: seq<Octet>, n: nat)
    requires |b| >= 8
    ensures ParsePort(b) == Port(n) <==>
              && n == b[0] as int + 0x100 * (b[1] as int) + 0x1_0000 * (b[2] as int) + 0x100_0000 * (b[3] as int)
              && b[3] < 128 && b[4] == b[5] == b[6] == b[7] == 0
  {
    var w := b[..8];
    LowAndHigh(w);
    FourBytes(w[..4]);
    ZeroIff(w[4..]);
    assert w[4..][0] == b[4] && w[4..][1] == b[5] && w[4..][2] == b[6] && w[4..][3] == b[7];
  }
}
