/**
 * Base64 as `base64.b64encode` produces it: the standard alphabet of
 * section 4 of RFC 4648, with '=' padding, and its decoding.
 */
module Base64 {
  import opened Common

  type Byte = b: int | 0 <= b < 256

  /** The character for a 6-bit value: A-Z, a-z, 0-9, '+', '/'. */
  function SextetChar(v: nat): (c: char)
    requires v < 64
    ensures c != '='
  {
    if v < 26 then ('A' as int + v) as char
    else if v < 52 then ('a' as int + (v - 26)) as char
    else if v < 62 then ('0' as int + (v - 52)) as char
    else if v == 62 then '+'
    else '/'
  }

  predicate IsSextetChar(c: char)
  {
    'A' <= c <= 'Z' || 'a' <= c <= 'z' || '0' <= c <= '9' || c == '+' || c == '/'
  }

  /** The 6-bit value of an alphabet character. */
  function SextetValue(c: char): (v: nat)
    requires IsSextetChar(c)
    ensures v < 64
  {
    if 'A' <= c <= 'Z' then c as int - 'A' as int
    else if 'a' <= c <= 'z' then c as int - 'a' as int + 26
    else if '0' <= c <= '9' then c as int - '0' as int + 52
    else if c == '+' then 62
    else 63
  }

  lemma SextetRoundTrip(v: nat)
    requires v < 64
    ensures IsSextetChar(SextetChar(v)) && SextetValue(SextetChar(v)) == v
  {
  }

  /** The four 6-bit values of three bytes, most significant bits first. */
  function EncodeGroup(a: Byte, b: Byte, c: Byte): string
  {
    [SextetChar(a / 4), SextetChar(a % 4 * 16 + b / 16), SextetChar(b % 16 * 4 + c / 64), SextetChar(c % 64)]
  }

  /** `base64.b64encode(bytes)`, as text: every character is from the alphabet or is the padding '='. */
  function Encode(bs: seq<Byte>): (e: string)
    ensures forall i :: 0 <= i < |e| ==> IsSextetChar(e[i]) || e[i] == '='
    decreases |bs|
  {
    if |bs| == 0 then []
    else if |bs| == 1 then
      SextetRoundTrip(bs[0] / 4);
      SextetRoundTrip(bs[0] % 4 * 16);
      [SextetChar(bs[0] / 4), SextetChar(bs[0] % 4 * 16), '=', '=']
    else if |bs| == 2 then
      SextetRoundTrip(bs[0] / 4);
      SextetRoundTrip(bs[0] % 4 * 16 + bs[1] / 16);
      SextetRoundTrip(bs[1] % 16 * 4);
      [SextetChar(bs[0] / 4), SextetChar(bs[0] % 4 * 16 + bs[1] / 16), SextetChar(bs[1] % 16 * 4), '=']
    else
      var g := EncodeGroup(bs[0], bs[1], bs[2]);
      var rest := Encode(bs[3..]);
      GroupRoundTrip(bs[0], bs[1], bs[2]);
      assert forall i :: 4 <= i < |g + rest| ==> (g + rest)[i] == rest[i - 4];
      g + rest
  }

  // The bytes spread over consecutive 6-bit values.
  function Byte0(s0: nat, s1: nat): Byte requires s0 < 64 && s1 < 64 { s0 * 4 + s1 / 16 }
  function Byte1(s1: nat, s2: nat): Byte requires s1 < 64 && s2 < 64 { s1 % 16 * 16 + s2 / 4 }
  function Byte2(s2: nat, s3: nat): Byte requires s2 < 64 && s3 < 64 { s2 % 4 * 64 + s3 }

  predicate AllSextetChars(s: string)
  {
    forall i :: 0 <= i < |s| ==> IsSextetChar(s[i])
  }

  /** Three bytes for four characters of the alphabet. */
  function DecodeGroup(s: string): seq<Byte>
    requires |s| == 4 && AllSextetChars(s)
  {
    var v0, v1, v2, v3 := SextetValue(s[0]), SextetValue(s[1]), SextetValue(s[2]), SextetValue(s[3]);
    [Byte0(v0, v1), Byte1(v1, v2), Byte2(v2, v3)]
  }

  /** Decoding of well-formed Base64 text; `None` for anything else. */
  function Decode(s: string): (r: Option<seq<Byte>>)
    decreases |s|
  {
    if |s| == 0 then Some([])
    else if |s| < 4 then None
    else if |s| == 4 && IsSextetChar(s[0]) && IsSextetChar(s[1]) && s[2] == '=' && s[3] == '=' then
      Some([Byte0(SextetValue(s[0]), SextetValue(s[1]))])
    else if |s| == 4 && IsSextetChar(s[0]) && IsSextetChar(s[1]) && IsSextetChar(s[2]) && s[3] == '=' then
      var v0, v1, v2 := SextetValue(s[0]), SextetValue(s[1]), SextetValue(s[2]);
      Some([Byte0(v0, v1), Byte1(v1, v2)])
    else if AllSextetChars(s[..4]) then
      match Decode(s[4..])
      case None => None
      case Some(rest) => Some(DecodeGroup(s[..4]) + rest)
    else None
  }

  lemma Split(x: nat, y: nat, m: nat)
    requires m == 4 || m == 16 || m == 64
    requires y < m
    ensures (x * m + y) / m == x && (x * m + y) % m == y
  {
  }

  /** The values `EncodeGroup` spreads the bytes over give the bytes back. */
  lemma Regroup(a: Byte, b: Byte, c: Byte)
    ensures Byte0(a / 4, a % 4 * 16 + b / 16) == a
    ensures Byte1(a % 4 * 16 + b / 16, b % 16 * 4 + c / 64) == b
    ensures Byte2(b % 16 * 4 + c / 64, c % 64) == c
  {
    Split(a % 4, b / 16, 16);
    Split(b % 16, c / 64, 4);
  }

  /** Four alphabet characters decode to the bytes their values spread over. */
  lemma DecodeSextets(v0: nat, v1: nat, v2: nat, v3: nat)
    requires v0 < 64 && v1 < 64 && v2 < 64 && v3 < 64
    ensures var g := [SextetChar(v0), SextetChar(v1), SextetChar(v2), SextetChar(v3)];
      AllSextetChars(g) && DecodeGroup(g) == [Byte0(v0, v1), Byte1(v1, v2), Byte2(v2, v3)]
  {
    SextetRoundTrip(v0);
    SextetRoundTrip(v1);
    SextetRoundTrip(v2);
    SextetRoundTrip(v3);
  }

  lemma GroupRoundTrip(a: Byte, b: Byte, c: Byte)
    ensures var g := EncodeGroup(a, b, c);
      AllSextetChars(g) && DecodeGroup(g) == [a, b, c]
  {
    DecodeSextets(a / 4, a % 4 * 16 + b / 16, b % 16 * 4 + c / 64, c % 64);
    Regroup(a, b, c);
  }

  lemma OneByteRoundTrip(a: Byte)
    ensures Decode(Encode([a])) == Some([a])
  {
    SextetRoundTrip(a / 4);
    SextetRoundTrip(a % 4 * 16);
    Regroup(a, 0, 0);
  }

  lemma TwoByteRoundTrip(a: Byte, b: Byte)
    ensures Decode(Encode([a, b])) == Some([a, b])
  {
    var v0, v1, v2 := a / 4, a % 4 * 16 + b / 16, b % 16 * 4;
    SextetRoundTrip(v0);
    SextetRoundTrip(v1);
    SextetRoundTrip(v2);
    Regroup(a, b, 0);
    var e := Encode([a, b]);
    assert e == [SextetChar(v0), SextetChar(v1), SextetChar(v2), '='];
    assert Decode(e) == Some([Byte0(v0, v1), Byte1(v1, v2)]);
  }

  /** Every encoding decodes back to the bytes it came from. */
  lemma {:induction false} RoundTrip(bs: seq<Byte>)
    ensures Decode(Encode(bs)) == Some(bs)
    decreases |bs|
  {
    if |bs| == 1 {
      OneByteRoundTrip(bs[0]);
      assert bs == [bs[0]];
    } else if |bs| == 2 {
      TwoByteRoundTrip(bs[0], bs[1]);
      assert bs == [bs[0], bs[1]];
    } else if |bs| >= 3 {
      RoundTrip(bs[3..]);
      GroupStep(bs);
    }
  }

  /** A group of four alphabet characters decodes to its three bytes in front of the rest. */
  lemma DecodeCons(g: string, rest: string, tail: seq<Byte>)
    requires |g| == 4 && AllSextetChars(g) && Decode(rest) == Some(tail)
    ensures Decode(g + rest) == Some(DecodeGroup(g) + tail)
  {
    var s := g + rest;
    assert s[..4] == g && s[4..] == rest;
    assert IsSextetChar(s[3]);
  }

  /** A leading group of three bytes decodes back in front of the rest. */
  lemma GroupStep(bs: seq<Byte>)
    requires |bs| >= 3 && Decode(Encode(bs[3..])) == Some(bs[3..])
    ensures Decode(Encode(bs)) == Some(bs)
  {
    var g := EncodeGroup(bs[0], bs[1], bs[2]);
    assert Encode(bs) == g + Encode(bs[3..]);
    GroupRoundTrip(bs[0], bs[1], bs[2]);
    DecodeCons(g, Encode(bs[3..]), bs[3..]);
    FirstThree(bs);
  }

  lemma FirstThree(bs: seq<Byte>)
    requires |bs| >= 3
    ensures bs == [bs[0], bs[1], bs[2]] + bs[3..]
  {
  }

  /** Four characters for every started group of three bytes. */
  lemma {:induction false} EncodeLength(bs: seq<Byte>)
    ensures |Encode(bs)| == 4 * ((|bs| + 2) / 3)
    decreases |bs|
  {
    if |bs| >= 3 {
      EncodeLength(bs[3..]);
      assert (|bs| + 2) / 3 == (|bs[3..]| + 2) / 3 + 1;
    }
  }

  /** The first 4k characters depend only on the first 3k bytes. */
  lemma {:induction false} EncodePrefix(bs: seq<Byte>, k: nat)
    requires 3 * k <= |bs|
    ensures |Encode(bs)| >= 4 * k && Encode(bs)[..4 * k] == Encode(bs[..3 * k])
    decreases k
  {
    EncodeLength(bs);
    if k > 0 {
      EncodePrefix(bs[3..], k - 1);
      assert bs[..3 * k][3..] == bs[3..][..3 * (k - 1)];
      assert bs[..3 * k][..3] == bs[..3];
    }
  }
}
