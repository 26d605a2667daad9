/** The 16-byte heartbeat packet: 8 bytes of sequence number followed by 8 bytes
    of timestamp, both big-endian. Timestamps are opaque 64-bit patterns. */
module Wire {

  newtype byte = b: int | 0 <= b < 256

  const U64_LIMIT := 0x1_0000_0000_0000_0000

  newtype u64 = x: int | 0 <= x < U64_LIMIT

  const PACKET_SIZE := 16

  datatype Heartbeat = Heartbeat(number: u64, stamp: u64)

  // ---------------------------------------------------------------------
  // Big-endian numbers
  // ---------------------------------------------------------------------

  function Pow256(n: nat): (p: nat)
    ensures p > 0
  {
    if n == 0 then 1 else 256 * Pow256(n - 1)
  }

  function BigEndian(x: nat, n: nat): (s: seq<byte>)
    ensures |s| == n
  {
    if n == 0 then [] else BigEndian(x / 256, n - 1) + [(x % 256) as byte]
  }

  /** The number written in the bytes from..end of b. */
  function FromBigEndian(b: seq<byte>, from: nat, end: nat): nat
    requires from <= end <= |b|
  {
    if from == end then 0 else 256 * FromBigEndian(b, from, end - 1) + b[end - 1] as int
  }

  lemma {:induction false} DivDiv(x: nat, p: nat)
    requires p > 0
    ensures x / 256 / p == x / (256 * p)
  {
    var q, r := x / 256 / p, x / 256 % p;
    var rest := 256 * r + x % 256;
    assert x == q * (256 * p) + rest by {
      assert x / 256 == q * p + r;
      assert x == 256 * (q * p + r) + x % 256;
      assert 256 * (q * p + r) == q * (256 * p) + 256 * r;
    }
    assert 0 <= rest < 256 * p;
    QuotientIsUnique(x, 256 * p, q, rest);
  }

  lemma {:induction false} QuotientIsUnique(x: int, d: int, q: int, r: int)
    requires 0 <= r < d && x == q * d + r
    ensures x / d == q
  {
    var e := x / d - q;
    assert e * d == r - x % d;
    assert e >= 1 ==> e * d >= d;
    assert e <= -1 ==> e * d <= -d;
  }

  /** Byte i of the encoding is the digit of weight 256^(n-1-i): most significant first. */
  lemma {:induction false} BigEndianDigit(x: nat, n: nat, i: nat)
    requires i < n
    ensures BigEndian(x, n)[i] as int == x / Pow256(n - 1 - i) % 256
  {
    if i == n - 1 {
    } else {
      BigEndianDigit(x / 256, n - 1, i);
      DivDiv(x, Pow256(n - 2 - i));
    }
  }

  lemma {:induction false} FromBigEndianBound(b: seq<byte>, from: nat, end: nat)
    requires from <= end <= |b|
    ensures FromBigEndian(b, from, end) < Pow256(end - from)
  {
    if from == end {
    } else {
      FromBigEndianBound(b, from, end - 1);
    }
  }

  lemma {:induction false} NumberRoundTrip(x: nat, n: nat, b: seq<byte>, from: nat)
    requires x < Pow256(n) && from + n <= |b|
    requires b[from..from + n] == BigEndian(x, n)
    ensures FromBigEndian(b, from, from + n) == x
    decreases n
  {
    if n == 0 {
    } else {
      assert b[from..from + n - 1] == BigEndian(x, n)[..n - 1] == BigEndian(x / 256, n - 1);
      assert b[from + n - 1] == BigEndian(x, n)[n - 1];
      NumberRoundTrip(x / 256, n - 1, b, from);
    }
  }

  lemma {:induction false} BytesRoundTrip(b: seq<byte>, from: nat, end: nat)
    requires from <= end <= |b|
    ensures BigEndian(FromBigEndian(b, from, end), end - from) == b[from..end]
    decreases end
  {
    if from == end {
    } else {
      BytesRoundTrip(b, from, end - 1);
      var high, x := FromBigEndian(b, from, end - 1), FromBigEndian(b, from, end);
      assert x == 256 * high + b[end - 1] as int;
      assert x / 256 == high && x % 256 == b[end - 1] as int;
      assert b[from..end] == b[from..end - 1] + [b[end - 1]];
    }
  }

  lemma {:induction false} Pow256Eight()
    ensures Pow256(8) == U64_LIMIT
    ensures Pow256(4) == 0x1_0000_0000
  {
    assert Pow256(4) == 0x1_0000_0000 by { assert Pow256(2) == 65536; }
    assert Pow256(6) == 65536 * Pow256(4);
  }

  // ---------------------------------------------------------------------
  // One packet
  // ---------------------------------------------------------------------

  function Encode(h: Heartbeat): (b: seq<byte>)
    ensures |b| == PACKET_SIZE
  {
    BigEndian(h.number as nat, 8) + BigEndian(h.stamp as nat, 8)
  }

  function Decode(b: seq<byte>): Heartbeat
    requires |b| == PACKET_SIZE
  {
    FromBigEndianBound(b, 0, 8);
    FromBigEndianBound(b, 8, 16);
    Pow256Eight();
    Heartbeat(FromBigEndian(b, 0, 8) as u64, FromBigEndian(b, 8, 16) as u64)
  }

  lemma {:induction false} DecodeEncode(h: Heartbeat)
    ensures Decode(Encode(h)) == h
  {
    Pow256Eight();
    NumberRoundTrip(h.number as nat, 8, Encode(h), 0);
    NumberRoundTrip(h.stamp as nat, 8, Encode(h), 8);
  }

  lemma {:induction false} EncodeDecode(b: seq<byte>)
    requires |b| == PACKET_SIZE
    ensures Encode(Decode(b)) == b
  {
    BytesRoundTrip(b, 0, 8);
    BytesRoundTrip(b, 8, 16);
    assert b == b[0..8] + b[8..16];
  }

  /** The byte order on the wire, digit by digit, for both fields. */
  lemma {:induction false} EncodeIsBigEndian(h: Heartbeat, i: nat)
    requires i < 8
    ensures Encode(h)[i] as int == h.number as nat / Pow256(7 - i) % 256
    ensures Encode(h)[8 + i] as int == h.stamp as nat / Pow256(7 - i) % 256
  {
    BigEndianDigit(h.number as nat, 8, i);
    BigEndianDigit(h.stamp as nat, 8, i);
  }

  /** Fill a fixed buffer byte by byte from the chained big-endian fields. */
  method EncodePacket(number: u64, stamp: u64) returns (buf: array<byte>)
    ensures fresh(buf) && buf.Length == PACKET_SIZE
    ensures Decode(buf[..]) == Heartbeat(number, stamp)
    ensures buf[..] == Encode(Heartbeat(number, stamp))
  {
    buf := new byte[PACKET_SIZE](_ => 0);
    var fields := BigEndian(number as nat, 8) + BigEndian(stamp as nat, 8);
    for i := 0 to PACKET_SIZE
      invariant buf[..i] == fields[..i]
    {
      buf[i] := fields[i];
    }
    assert buf[..] == buf[..PACKET_SIZE] == fields;
    DecodeEncode(Heartbeat(number, stamp));
  }

  // ---------------------------------------------------------------------
  // A stream of packets
  // ---------------------------------------------------------------------

  function EncodeAll(hs: seq<Heartbeat>): (b: seq<byte>)
    ensures |b| == PACKET_SIZE * |hs|
  {
    if hs == [] then [] else EncodeAll(hs[..|hs| - 1]) + Encode(hs[|hs| - 1])
  }

  lemma {:induction false} EncodeAllSnoc(hs: seq<Heartbeat>, h: Heartbeat)
    ensures EncodeAll(hs + [h]) == EncodeAll(hs) + Encode(h)
  {
    assert (hs + [h])[..|hs|] == hs;
  }

  lemma {:induction false} EncodeAllSplit(hs: seq<Heartbeat>, k: nat)
    requires k <= |hs|
    ensures EncodeAll(hs) == EncodeAll(hs[..k]) + EncodeAll(hs[k..])
    decreases |hs|
  {
    hide Encode;
    var last := |hs| - 1;
    if k == |hs| {
      assert hs[..k] == hs;
    } else {
      EncodeAllSplit(hs[..last], k);
      assert hs[..last][..k] == hs[..k] && hs[..last][k..] == hs[k..][..last - k];
      ConcatAssociates(EncodeAll(hs[..k]), EncodeAll(hs[k..][..last - k]), Encode(hs[last]));
    }
  }

  lemma {:induction false} EncodeAllSlice(hs: seq<Heartbeat>, i: nat)
    requires i < |hs|
    ensures EncodeAll(hs)[PACKET_SIZE * i..PACKET_SIZE * i + PACKET_SIZE] == Encode(hs[i])
  {
    var last := |hs| - 1;
    if i == last {
    } else {
      EncodeAllSlice(hs[..last], i);
      var lo := PACKET_SIZE * i;
      assert EncodeAll(hs)[lo..lo + PACKET_SIZE] == EncodeAll(hs[..last])[lo..lo + PACKET_SIZE];
    }
  }

  /** Encoded streams can only be prefixes of each other packet by packet. */
  lemma {:induction false} EncodeAllPrefix(a: seq<Heartbeat>, b: seq<Heartbeat>)
    requires EncodeAll(a) <= EncodeAll(b)
    ensures a <= b
  {
    forall i | 0 <= i < |a| ensures a[i] == b[i] {
      EncodeAllSlice(a, i);
      EncodeAllSlice(b, i);
      var lo := PACKET_SIZE * i;
      assert EncodeAll(a)[lo..lo + PACKET_SIZE] == EncodeAll(b)[lo..lo + PACKET_SIZE];
      DecodeEncode(a[i]);
      DecodeEncode(b[i]);
    }
  }

  lemma {:induction false} ConcatAssociates(a: seq<byte>, b: seq<byte>, c: seq<byte>)
    ensures (a + b) + c == a + (b + c)
  {
  }

  /** Cutting a byte stream into packets, and what is left over. */
  function CutPackets(b: seq<byte>): seq<Heartbeat> {
    seq(|b| / PACKET_SIZE, i requires 0 <= i < |b| / PACKET_SIZE =>
      Decode(b[PACKET_SIZE * i..PACKET_SIZE * i + PACKET_SIZE]))
  }

  function CutResidue(b: seq<byte>): seq<byte> {
    b[PACKET_SIZE * (|b| / PACKET_SIZE)..]
  }

  /** The cut is the only way to read a stream as whole packets plus less than one packet. */
  lemma {:induction false} CutIsUnique(b: seq<byte>, hs: seq<Heartbeat>, rest: seq<byte>)
    requires |rest| < PACKET_SIZE
    requires b == EncodeAll(hs) + rest
    ensures hs == CutPackets(b) && rest == CutResidue(b)
  {
    assert |b| / PACKET_SIZE == |hs|;
    forall i | 0 <= i < |hs| ensures hs[i] == CutPackets(b)[i] {
      EncodeAllSlice(hs, i);
      var lo := PACKET_SIZE * i;
      assert b[lo..lo + PACKET_SIZE] == EncodeAll(hs)[lo..lo + PACKET_SIZE];
      DecodeEncode(hs[i]);
    }
  }
}
