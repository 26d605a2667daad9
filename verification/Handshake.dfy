/** The client announces its node name; the server turns it into a label. Which
    characters count as alphanumeric is a parameter: all that is ever assumed of it is
    that the letters of "unknown" do. */
module Handshake {
  import opened Wire
  import opened Wrappers
  import opened Transport
  import opened Utf8

  const MAX_HANDSHAKE_NAME_LEN := 256

  const MAX_PEER_NAME_CHARS := 64

  const UNKNOWN := "unknown"

  // ---------------------------------------------------------------------
  // Sanitising
  // ---------------------------------------------------------------------

  predicate KnowsLetters(alnum: char -> bool) {
    alnum('u') && alnum('n') && alnum('k') && alnum('o') && alnum('w')
  }

  predicate Allowed(alnum: char -> bool, c: char) {
    alnum(c) || c == '-' || c == '_' || c == '.'
  }

  function Kept(alnum: char -> bool, name: string): string {
    if name == [] then []
    else if Allowed(alnum, name[0]) then [name[0]] + Kept(alnum, name[1..])
    else Kept(alnum, name[1..])
  }

  function Shortened(s: string): string {
    if |s| <= MAX_PEER_NAME_CHARS then s else s[..MAX_PEER_NAME_CHARS]
  }

  function Sanitize(alnum: char -> bool, name: string): string {
    var s := Shortened(Kept(alnum, name));
    if s == [] then UNKNOWN else s
  }

  /** What a label looks like. */
  predicate IsLabel(alnum: char -> bool, s: string) {
    1 <= |s| <= MAX_PEER_NAME_CHARS && forall i :: 0 <= i < |s| ==> Allowed(alnum, s[i])
  }

  lemma {:induction false} KeptIsAllowed(alnum: char -> bool, name: string)
    ensures forall i :: 0 <= i < |Kept(alnum, name)| ==> Allowed(alnum, Kept(alnum, name)[i])
  {
    if name == [] {
    } else {
      KeptIsAllowed(alnum, name[1..]);
    }
  }

  lemma {:induction false} AllowedIsKept(alnum: char -> bool, s: string)
    requires forall i :: 0 <= i < |s| ==> Allowed(alnum, s[i])
    ensures Kept(alnum, s) == s
  {
    if s == [] {
    } else {
      AllowedIsKept(alnum, s[1..]);
    }
  }

  lemma {:induction false} SanitizeMakesLabels(alnum: char -> bool, name: string)
    requires KnowsLetters(alnum)
    ensures IsLabel(alnum, Sanitize(alnum, name))
  {
    KeptIsAllowed(alnum, name);
  }

  /** A label sanitises to itself; so sanitising twice changes nothing more. */
  lemma {:induction false} SanitizeKeepsLabels(alnum: char -> bool, s: string)
    requires IsLabel(alnum, s)
    ensures Sanitize(alnum, s) == s
  {
    AllowedIsKept(alnum, s);
  }

  lemma {:induction false} SanitizeIsIdempotent(alnum: char -> bool, name: string)
    requires KnowsLetters(alnum)
    ensures Sanitize(alnum, Sanitize(alnum, name)) == Sanitize(alnum, name)
  {
    SanitizeMakesLabels(alnum, name);
    SanitizeKeepsLabels(alnum, Sanitize(alnum, name));
  }

  lemma {:induction false} KeptSplits(alnum: char -> bool, a: string, b: string)
    ensures Kept(alnum, a + b) == Kept(alnum, a) + Kept(alnum, b)
  {
    hide Allowed;
    if a == [] {
      assert a + b == b;
    } else {
      KeptSplits(alnum, a[1..], b);
      assert (a + b)[0] == a[0] && (a + b)[1..] == a[1..] + b;
      assert [a[0]] + (Kept(alnum, a[1..]) + Kept(alnum, b)) == [a[0]] + Kept(alnum, a[1..]) + Kept(alnum, b);
    }
  }

  /** An allowed character stays, right after the allowed ones before it, unless those are
      64 already. */
  lemma {:induction false} SanitizeKeepsInOrder(alnum: char -> bool, before: string, c: char, after: string)
    requires Allowed(alnum, c) && |Kept(alnum, before)| < MAX_PEER_NAME_CHARS
    ensures
      var s, k := Sanitize(alnum, before + [c] + after), |Kept(alnum, before)|;
      k < |s| && s[k] == c && s[..k] == Kept(alnum, before)
  {
    KeptSplits(alnum, before + [c], after);
    KeptSplits(alnum, before, [c]);
  }

  /** Where in the name the characters are that a label may have: these places and no
      others, in order. */
  ghost predicate Picks(alnum: char -> bool, name: string, places: seq<nat>) {
    && (forall i :: 0 <= i < |places| ==> places[i] < |name|)
    && (forall i, j :: 0 <= i < j < |places| ==> places[i] < places[j])
    && (forall k :: 0 <= k < |name| ==>
      (k in places <==> alnum(name[k]) || name[k] == '-' || name[k] == '_' || name[k] == '.'))
  }

  lemma {:induction false} KeptPicks(alnum: char -> bool, name: string) returns (places: seq<nat>)
    ensures Picks(alnum, name, places) && |Kept(alnum, name)| == |places|
    ensures forall i :: 0 <= i < |places| ==> Kept(alnum, name)[i] == name[places[i]]
    decreases |name|
  {
    hide Picks, Allowed;
    if name == [] {
      NothingPicked(alnum);
      places := [];
    } else {
      var n := |name| - 1;
      assert name == name[..n] + [name[n]];
      KeptSplits(alnum, name[..n], [name[n]]);
      var before := KeptPicks(alnum, name[..n]);
      places := if Allowed(alnum, name[n]) then before + [n] else before;
      PicksOneMore(alnum, name, before, places);
      PicksPlaces(alnum, name[..n], before);
    }
  }

  lemma {:induction false} PicksPlaces(alnum: char -> bool, name: string, places: seq<nat>)
    requires Picks(alnum, name, places)
    ensures forall i :: 0 <= i < |places| ==> places[i] < |name|
  {
  }

  lemma {:induction false} NothingPicked(alnum: char -> bool)
    ensures Picks(alnum, "", [])
  {
  }

  lemma {:induction false} PicksOneMore(alnum: char -> bool, name: string, before: seq<nat>, places: seq<nat>)
    requires name != [] && Picks(alnum, name[..|name| - 1], before)
    requires places == if Allowed(alnum, name[|name| - 1]) then before + [|name| - 1] else before
    ensures Picks(alnum, name, places)
  {
    var n := |name| - 1;
    forall k | 0 <= k < |name|
      ensures k in places <==> alnum(name[k]) || name[k] == '-' || name[k] == '_' || name[k] == '.'
    {
      if k < n {
        assert k in places <==> k in before;
      } else {
        assert n !in before;
      }
    }
  }

  /** A label is the first 64 of exactly those characters of the name, in order; with none
      of them it is "unknown". */
  lemma {:induction false} SanitizeIsFilter(alnum: char -> bool, name: string)
    ensures exists places ::
      && Picks(alnum, name, places)
      && if places == [] then Sanitize(alnum, name) == "unknown"
         else
           && |Sanitize(alnum, name)| == (if |places| <= 64 then |places| else 64)
           && forall i :: 0 <= i < |Sanitize(alnum, name)| ==> Sanitize(alnum, name)[i] == name[places[i]]
  {
    var places := KeptPicks(alnum, name);
    assert Picks(alnum, name, places);
  }

  // ---------------------------------------------------------------------
  // The bytes of the handshake
  // ---------------------------------------------------------------------

  /** The name as sent: cut at 256 bytes, wherever that falls. */
  function NameBytes(name: string): (b: seq<byte>)
    ensures |b| <= MAX_HANDSHAKE_NAME_LEN
  {
    Take(EncodeText(name), MAX_HANDSHAKE_NAME_LEN)
  }

  function Hello(name: string): seq<byte> {
    BigEndian(|NameBytes(name)|, 4) + NameBytes(name)
  }

  /** The label for the name bytes received: text that is not UTF-8 counts as empty. */
  function LabelOf(alnum: char -> bool, bytes: seq<byte>): string {
    var raw := DecodeText(bytes);
    Sanitize(alnum, if raw.Some? then raw.value else "")
  }

  /** The length prefix, once all four of its bytes are there. */
  function Announces(held: seq<byte>): nat
    requires |held| >= 4
  {
    FromBigEndian(held, 0, 4)
  }

  predicate GoodLength(len: nat) {
    0 < len <= MAX_HANDSHAKE_NAME_LEN
  }

  /** How many more bytes the server waits for, given those it holds. Never past the
      end of the handshake, so whatever follows stays in the stream. */
  function StillWanted(held: seq<byte>): nat {
    if |held| < 4 then 4 - |held|
    else if !GoodLength(Announces(held)) || |held| >= 4 + Announces(held) then 0
    else 4 + Announces(held) - |held|
  }

  /** The length that a handshake announces, from its first four bytes, and which are good. */
  lemma {:induction false} AnnouncesLiterally(held: seq<byte>)
    requires |held| >= 4
    ensures Announces(held) ==
      held[0] as int * 16777216 + held[1] as int * 65536 + held[2] as int * 256 + held[3] as int
    ensures GoodLength(Announces(held)) <==> 1 <= Announces(held) <= 256
  {
    assert FromBigEndian(held, 0, 1) == held[0] as int;
    assert FromBigEndian(held, 0, 2) == 256 * held[0] as int + held[1] as int;
    assert FromBigEndian(held, 0, 3) == 256 * (256 * held[0] as int + held[1] as int) + held[2] as int;
  }

  /** The label of name bytes that are text is that of the text, and "unknown" if they are not. */
  lemma {:induction false} LabelOfBytes(alnum: char -> bool, bytes: seq<byte>)
    ensures forall name :: EncodeText(name) == bytes ==> LabelOf(alnum, bytes) == Sanitize(alnum, name)
    ensures (forall name :: EncodeText(name) != bytes) ==> LabelOf(alnum, bytes) == "unknown"
  {
    hide Sanitize;
    forall name | EncodeText(name) == bytes ensures LabelOf(alnum, bytes) == Sanitize(alnum, name) {
      DecodeEncodeText(name);
    }
    if DecodeText(bytes).Some? {
      EncodeDecodeText(bytes);
    } else {
      EmptyIsUnknown(alnum);
    }
  }

  lemma {:induction false} HelloAnnounces(name: string)
    ensures |Hello(name)| == 4 + |NameBytes(name)|
    ensures Announces(Hello(name)) == |NameBytes(name)|
    ensures Hello(name)[4..] == NameBytes(name)
  {
    Pow256Eight();
    NumberRoundTrip(|NameBytes(name)|, 4, Hello(name), 0);
  }

  lemma {:induction false} AnnouncesPrefix(a: seq<byte>, b: seq<byte>)
    requires 4 <= |a| && a <= b
    ensures Announces(a) == Announces(b)
  {
    NumberDependsOn(a, b, 4);
  }

  lemma {:induction false} NumberDependsOn(a: seq<byte>, b: seq<byte>, n: nat)
    requires n <= |a| && a <= b
    ensures FromBigEndian(a, 0, n) == FromBigEndian(b, 0, n)
  {
    if n == 0 {
    } else {
      NumberDependsOn(a, b, n - 1);
      assert a[n - 1] == b[n - 1];
    }
  }

  // ---------------------------------------------------------------------
  // The label a name ends up as
  // ---------------------------------------------------------------------

  /** At most 256 bytes: the name arrives whole. Past that, the label is that of the
      256-byte prefix when the cut falls on a character boundary, and otherwise "unknown". */
  lemma {:induction false} LabelOfName(alnum: char -> bool, name: string)
    ensures |EncodeText(name)| <= MAX_HANDSHAKE_NAME_LEN ==> LabelOf(alnum, NameBytes(name)) == Sanitize(alnum, name)
    ensures |EncodeText(name)| > MAX_HANDSHAKE_NAME_LEN ==>
      if exists i :: 0 <= i <= |name| && |EncodeText(name[..i])| == MAX_HANDSHAKE_NAME_LEN
      then forall i :: 0 <= i <= |name| && |EncodeText(name[..i])| == MAX_HANDSHAKE_NAME_LEN ==>
        LabelOf(alnum, NameBytes(name)) == Sanitize(alnum, name[..i])
      else LabelOf(alnum, NameBytes(name)) == UNKNOWN
  {
    hide Sanitize;
    if |EncodeText(name)| <= MAX_HANDSHAKE_NAME_LEN {
      DecodeEncodeText(name);
    } else {
      CutText(name, MAX_HANDSHAKE_NAME_LEN);
      forall i | 0 <= i <= |name| && |EncodeText(name[..i])| == MAX_HANDSHAKE_NAME_LEN
        ensures LabelOf(alnum, NameBytes(name)) == Sanitize(alnum, name[..i])
      {
        EncodeTextSplit(name, i);
        DecodeEncodeText(name[..i]);
        assert NameBytes(name) == EncodeText(name[..i]);
      }
      var d := DecodeText(NameBytes(name));
      if d.Some? {
        assert name[..|d.value|] == d.value;
      } else {
        EmptyIsUnknown(alnum);
      }
    }
  }

  lemma {:induction false} EmptyIsUnknown(alnum: char -> bool)
    ensures Sanitize(alnum, "") == UNKNOWN
  {
  }

  /** Names of 1 to 64 characters take at most 256 bytes, so they are never cut. */
  lemma {:induction false} ShortNamesArriveWhole(alnum: char -> bool, name: string)
    requires 1 <= |name| <= MAX_PEER_NAME_CHARS
    ensures LabelOf(alnum, NameBytes(name)) == Sanitize(alnum, name)
    ensures GoodLength(|NameBytes(name)|)
  {
    hide LabelOf, Sanitize;
    EncodeTextLength(name);
    LabelOfName(alnum, name);
  }

  // ---------------------------------------------------------------------
  // Sending and receiving over a stream
  // ---------------------------------------------------------------------

  /** A byte stream that is already complete: the bytes written and not yet read,
      after which the peer closes. */
  class ByteStream {
    var bytes: seq<byte>

    constructor (bytes: seq<byte>)
      ensures this.bytes == bytes
    {
      this.bytes := bytes;
    }

    method WriteAll(b: seq<byte>)
      modifies this
      ensures bytes == old(bytes) + b
    {
      bytes := bytes + b;
    }

    /** Read exactly n bytes, or everything that is left and fail. */
    method ReadExact(n: nat) returns (r: Result<seq<byte>, ErrorKind>)
      modifies this
      ensures if n <= |old(bytes)| then r == Ok(old(bytes)[..n]) && bytes == old(bytes)[n..]
              else r == Err(UnexpectedEof) && bytes == []
    {
      if n <= |bytes| {
        r, bytes := Ok(bytes[..n]), bytes[n..];
      } else {
        r, bytes := Err(UnexpectedEof), [];
      }
    }
  }

  method SendHandshake(stream: ByteStream, name: string)
    modifies stream
    ensures stream.bytes == old(stream.bytes) + Hello(name)
  {
    var bytes := EncodeText(name);
    if |bytes| > MAX_HANDSHAKE_NAME_LEN {
      bytes := bytes[..MAX_HANDSHAKE_NAME_LEN];
    }
    stream.WriteAll(BigEndian(|bytes|, 4));
    stream.WriteAll(bytes);
    ConcatAssociates(old(stream.bytes), BigEndian(|bytes|, 4), bytes);
  }

  /** A handshake that arrives in full leaves exactly what was sent after it. */
  method ReadHandshake(stream: ByteStream, alnum: char -> bool) returns (r: Result<string, ErrorKind>)
    modifies stream
    ensures r.Ok? <==>
      && |old(stream.bytes)| >= 4 && GoodLength(Announces(old(stream.bytes)))
      && |old(stream.bytes)| >= 4 + Announces(old(stream.bytes))
    ensures r.Ok? ==>
      var end := 4 + Announces(old(stream.bytes));
      && r.value == LabelOf(alnum, old(stream.bytes)[4..end])
      && stream.bytes == old(stream.bytes)[end..]
    ensures r == Err(OtherKind) <==> |old(stream.bytes)| >= 4 && !GoodLength(Announces(old(stream.bytes)))
    ensures r.Err? ==> r.error in {OtherKind, UnexpectedEof}
    ensures |old(stream.bytes)| >= 4 ==>
      var b := old(stream.bytes);
      var len := b[0] as int * 16777216 + b[1] as int * 65536 + b[2] as int * 256 + b[3] as int;
      if 1 <= len <= 256 then r.Ok? <==> |b| >= 4 + len
      else r == Err(OtherKind) && stream.bytes == b[4..]
  {
    hide LabelOf;
    var prefix := stream.ReadExact(4);
    if prefix.Err? {
      return Err(prefix.error);
    }
    var len := FromBigEndian(prefix.value, 0, 4);
    AnnouncesPrefix(prefix.value, old(stream.bytes));
    AnnouncesLiterally(old(stream.bytes));
    if len == 0 || len > MAX_HANDSHAKE_NAME_LEN {
      return Err(OtherKind);
    }
    var name := stream.ReadExact(len);
    if name.Err? {
      return Err(name.error);
    }
    assert old(stream.bytes)[4..][..len] == old(stream.bytes)[4..4 + len];
    assert old(stream.bytes)[4..][len..] == old(stream.bytes)[4 + len..];
    r := Ok(LabelOf(alnum, name.value));
  }

  /** Any name that is not empty gets through, as the label `LabelOfName` describes. */
  method RoundTrip(name: string, alnum: char -> bool, rest: seq<byte>) returns (r: Result<string, ErrorKind>, after: seq<byte>)
    ensures name != [] ==> r == Ok(LabelOf(alnum, NameBytes(name))) && after == rest
    ensures name == [] ==> r == Err(OtherKind)
  {
    var stream := new ByteStream([]);
    SendHandshake(stream, name);
    stream.WriteAll(rest);
    EncodeTextLength(name);
    HelloAnnounces(name);
    ghost var sent := stream.bytes;
    assert sent == Hello(name) + rest;
    AnnouncesPrefix(Hello(name), sent);
    assert name != [] ==> sent[4..4 + |NameBytes(name)|] == NameBytes(name);
    r := ReadHandshake(stream, alnum);
    after := stream.bytes;
  }
}
