/** UTF-8 as in section 3 of RFC 3629. A Dafny character is a Unicode scalar value. */
module Utf8 {
  import opened Wire
  import opened Wrappers

  function EncodeChar(ch: char): (b: seq<byte>)
    ensures 1 <= |b| <= 4
  {
    var c := ch as int;
    if c < 0x80 then [c as byte]
    else if c < 0x800 then [Lead(0xC0, c / 64), Tail(c)]
    else if c < 0x1_0000 then [Lead(0xE0, c / 64 / 64), Tail(c / 64), Tail(c)]
    else [Lead(0xF0, c / 64 / 64 / 64), Tail(c / 64 / 64), Tail(c / 64), Tail(c)]
  }

  function Lead(mark: nat, bits: nat): byte
    requires mark + bits < 0x100
  {
    (mark + bits) as byte
  }

  /** A continuation octet carries six bits. */
  function Tail(c: nat): byte {
    (0x80 + c % 64) as byte
  }

  function EncodeText(s: string): seq<byte> {
    if s == [] then [] else EncodeChar(s[0]) + EncodeText(s[1..])
  }

  predicate IsTail(b: byte) {
    0x80 <= b < 0xC0
  }

  /** The number of octets that a first octet announces; 0 for one that starts nothing. */
  function Announced(first: byte): nat {
    if first < 0x80 then 1
    else if 0xC2 <= first < 0xE0 then 2
    else if 0xE0 <= first < 0xF0 then 3
    else if 0xF0 <= first < 0xF5 then 4
    else 0
  }

  /** More bits appended to a code point so far. */
  function Append(high: int, b: byte): int {
    high * 64 + (b as int - 0x80)
  }

  predicate IsScalar(c: int) {
    0 <= c < 0xD800 || 0xE000 <= c < 0x11_0000
  }

  /** The code point in the first n octets, or -1. */
  function CodePoint(b: seq<byte>, n: nat): int
    requires 1 <= n <= |b|
  {
    if n == 1 && b[0] < 0x80 then b[0] as int
    else if n == 2 && b[0] >= 0xC0 && IsTail(b[1]) then
      Append(b[0] as int - 0xC0, b[1])
    else if n == 3 && b[0] >= 0xE0 && IsTail(b[1]) && IsTail(b[2]) then
      Append(Append(b[0] as int - 0xE0, b[1]), b[2])
    else if n == 4 && b[0] >= 0xF0 && IsTail(b[1]) && IsTail(b[2]) && IsTail(b[3]) then
      Append(Append(Append(b[0] as int - 0xF0, b[1]), b[2]), b[3])
    else -1
  }

  /** The smallest code point that needs n octets. */
  function Smallest(n: nat): int {
    if n == 1 then 0 else if n == 2 then 0x80 else if n == 3 then 0x800 else 0x1_0000
  }

  /** The first character and its length: no overlong forms, no surrogates, nothing past 0x10FFFF. */
  function DecodeChar(b: seq<byte>): Option<(char, nat)>
    requires b != []
  {
    var n := Announced(b[0]);
    if n == 0 || n > |b| then None
    else
      var c := CodePoint(b, n);
      if IsScalar(c) && c >= Smallest(n) then Some((c as char, n)) else None
  }

  function DecodeText(b: seq<byte>): Option<string>
    decreases |b|
  {
    if b == [] then Some([])
    else
      var first := DecodeChar(b);
      if first.None? || first.value.1 == 0 || first.value.1 > |b| then None
      else
        var rest := DecodeText(b[first.value.1..]);
        if rest.None? then None else Some([first.value.0] + rest.value)
  }

  /** The table of section 3 of RFC 3629: how many octets each range of characters takes, the
      marks in them, and how their other bits make up the character. With `DecodeEncodeText`
      and `EncodeDecodeText` that settles encoding and decoding both. */
  lemma {:induction false} OctetsOfChar(ch: char)
    ensures
      var b, c := EncodeChar(ch), ch as int;
      && (c < 0x80 ==> b == [c as byte])
      && (0x80 <= c < 0x800 ==>
        |b| == 2 && 0xC0 <= b[0] < 0xE0 && 0x80 <= b[1] < 0xC0
        && c == 64 * (b[0] as int - 0xC0) + (b[1] as int - 0x80))
      && (0x800 <= c < 0x1_0000 ==>
        |b| == 3 && 0xE0 <= b[0] < 0xF0 && 0x80 <= b[1] < 0xC0 && 0x80 <= b[2] < 0xC0
        && c == 4096 * (b[0] as int - 0xE0) + 64 * (b[1] as int - 0x80) + (b[2] as int - 0x80))
      && (0x1_0000 <= c ==>
        |b| == 4 && 0xF0 <= b[0] < 0xF8 && 0x80 <= b[1] < 0xC0 && 0x80 <= b[2] < 0xC0 && 0x80 <= b[3] < 0xC0
        && c == 262144 * (b[0] as int - 0xF0) + 4096 * (b[1] as int - 0x80) + 64 * (b[2] as int - 0x80) + (b[3] as int - 0x80))
  {
    var c := ch as int;
    assert c == 64 * (c / 64) + c % 64;
    assert c / 64 == 64 * (c / 64 / 64) + c / 64 % 64;
    assert c / 64 / 64 == 64 * (c / 64 / 64 / 64) + c / 64 / 64 % 64;
  }

  /** The octets of a text are those of its characters, in order. */
  lemma {:induction false} OctetsOfText(s: string, t: string)
    ensures EncodeText(s + t) == EncodeText(s) + EncodeText(t)
  {
    assert (s + t)[..|s|] == s && (s + t)[|s|..] == t;
    EncodeTextSplit(s + t, |s|);
  }

  lemma {:induction false} DecodeCharEncode(ch: char, rest: seq<byte>)
    ensures DecodeChar(EncodeChar(ch) + rest) == Some((ch, |EncodeChar(ch)|))
  {
    var c, e := ch as int, EncodeChar(ch);
    var b := e + rest;
    assert b[0] == e[0];
    if c < 0x80 {
    } else if c < 0x800 {
      assert b[1] == e[1] && Append(c / 64, Tail(c)) == c;
    } else if c < 0x1_0000 {
      assert b[1] == e[1] && b[2] == e[2];
      assert Append(c / 64 / 64, Tail(c / 64)) == c / 64 && Append(c / 64, Tail(c)) == c;
    } else {
      assert b[1] == e[1] && b[2] == e[2] && b[3] == e[3];
      assert Append(c / 64 / 64 / 64, Tail(c / 64 / 64)) == c / 64 / 64;
      assert Append(c / 64 / 64, Tail(c / 64)) == c / 64 && Append(c / 64, Tail(c)) == c;
    }
  }

  lemma {:induction false} AppendSplits(high: nat, b: byte)
    requires IsTail(b)
    ensures Append(high, b) >= 0 && Append(high, b) / 64 == high && Tail(Append(high, b)) == b
  {
  }

  lemma {:induction false} EncodeCharDecode(b: seq<byte>)
    requires b != [] && DecodeChar(b).Some?
    ensures 0 < DecodeChar(b).value.1 <= |b|
    ensures EncodeChar(DecodeChar(b).value.0) == b[..DecodeChar(b).value.1]
  {
    hide EncodeChar, Append;
    var n := Announced(b[0]);
    var c := CodePoint(b, n);
    if n == 1 {
      EncodeOne(b);
    } else if n == 2 {
      EncodeTwo(b, c);
    } else if n == 3 {
      EncodeThree(b, c);
    } else if n == 4 {
      EncodeFour(b, c);
    }
  }

  lemma {:induction false} EncodeOne(b: seq<byte>)
    requires b != [] && b[0] < 0x80
    ensures EncodeChar(b[0] as int as char) == [b[0]]
  {
  }

  lemma {:induction false} EncodeTwo(b: seq<byte>, c: int)
    requires |b| >= 2 && Announced(b[0]) == 2 && c == CodePoint(b, 2) && IsScalar(c) && c >= 0x80
    ensures EncodeChar(c as char) == [b[0], b[1]]
  {
    AppendSplits(b[0] as int - 0xC0, b[1]);
    assert c / 64 == b[0] as int - 0xC0 && c < 0x800;
  }

  lemma {:induction false} EncodeThree(b: seq<byte>, c: int)
    requires |b| >= 3 && Announced(b[0]) == 3 && c == CodePoint(b, 3) && IsScalar(c) && c >= 0x800
    ensures EncodeChar(c as char) == [b[0], b[1], b[2]]
  {
    var high := Append(b[0] as int - 0xE0, b[1]);
    AppendSplits(b[0] as int - 0xE0, b[1]);
    AppendSplits(high, b[2]);
    assert c / 64 == high && c / 64 / 64 == b[0] as int - 0xE0 && c < 0x1_0000;
  }

  lemma {:induction false} EncodeFour(b: seq<byte>, c: int)
    requires |b| >= 4 && Announced(b[0]) == 4 && c == CodePoint(b, 4) && IsScalar(c) && c >= 0x1_0000
    ensures EncodeChar(c as char) == [b[0], b[1], b[2], b[3]]
  {
    var high := Append(b[0] as int - 0xF0, b[1]);
    var middle := Append(high, b[2]);
    AppendSplits(b[0] as int - 0xF0, b[1]);
    AppendSplits(high, b[2]);
    AppendSplits(middle, b[3]);
    assert c / 64 == middle && c / 64 / 64 == high && c / 64 / 64 / 64 == b[0] as int - 0xF0;
  }

  lemma {:induction false} DecodeEncodeText(s: string)
    ensures DecodeText(EncodeText(s)) == Some(s)
  {
    hide EncodeChar, DecodeChar;
    if s == [] {
    } else {
      var first, rest := EncodeChar(s[0]), EncodeText(s[1..]);
      DecodeCharEncode(s[0], rest);
      DecodeEncodeText(s[1..]);
      assert (first + rest)[|first|..] == rest;
      assert [s[0]] + s[1..] == s;
    }
  }

  lemma {:induction false} EncodeDecodeText(b: seq<byte>)
    requires DecodeText(b).Some?
    ensures EncodeText(DecodeText(b).value) == b
    decreases |b|
  {
    hide EncodeChar, DecodeChar;
    if b == [] {
    } else {
      var n := DecodeChar(b).value.1;
      EncodeCharDecode(b);
      EncodeDecodeText(b[n..]);
      var s := DecodeText(b).value;
      assert s[1..] == DecodeText(b[n..]).value;
      assert b == b[..n] + b[n..];
    }
  }

  lemma {:induction false} EncodeTextPrefix(t: string, s: string)
    requires EncodeText(t) <= EncodeText(s)
    ensures t <= s
  {
    if t == [] {
    } else {
      hide EncodeChar, DecodeChar;
      var first := EncodeChar(t[0]);
      var b := EncodeText(s);
      assert |b| >= |first| > 0;
      DecodeCharEncode(t[0], b[|first|..]);
      assert b[..|first|] == EncodeText(t)[..|first|] == first;
      assert b == first + b[|first|..];
      DecodeCharEncode(s[0], EncodeText(s[1..]));
      assert t[0] == s[0];
      assert EncodeText(t)[|first|..] == EncodeText(t[1..]);
      assert b[|first|..] == EncodeText(s[1..]);
      EncodeTextPrefix(t[1..], s[1..]);
    }
  }

  /** Cutting an encoded text anywhere leaves the encoding of a prefix of it, or nothing
      that decodes at all. */
  lemma {:induction false} CutText(s: string, cut: nat)
    requires cut <= |EncodeText(s)|
    ensures
      var d := DecodeText(EncodeText(s)[..cut]);
      && (d.Some? ==> d.value <= s && |EncodeText(d.value)| == cut)
      && (d.None? ==> forall i :: 0 <= i <= |s| ==> |EncodeText(s[..i])| != cut)
  {
    var b := EncodeText(s)[..cut];
    var d := DecodeText(b);
    if d.Some? {
      EncodeDecodeText(b);
      EncodeTextPrefix(d.value, s);
    } else {
      forall i | 0 <= i <= |s| ensures |EncodeText(s[..i])| != cut {
        EncodeTextSplit(s, i);
        DecodeEncodeText(s[..i]);
        assert EncodeText(s[..i]) == EncodeText(s)[..|EncodeText(s[..i])|];
      }
    }
  }

  lemma {:induction false} EncodeTextSplit(s: string, i: nat)
    requires i <= |s|
    ensures EncodeText(s) == EncodeText(s[..i]) + EncodeText(s[i..])
  {
    hide EncodeChar;
    if i == 0 {
      assert s[..0] == [] && s[0..] == s;
    } else {
      EncodeTextSplit(s[1..], i - 1);
      assert s[..i][1..] == s[1..][..i - 1] && s[1..][i - 1..] == s[i..];
      ConcatAssociates(EncodeChar(s[0]), EncodeText(s[..i][1..]), EncodeText(s[i..]));
    }
  }

  lemma {:induction false} EncodeTextLength(s: string)
    ensures |s| <= |EncodeText(s)| <= 4 * |s|
  {
    if s == [] {
    } else {
      hide EncodeChar;
      EncodeTextLength(s[1..]);
    }
  }
}
