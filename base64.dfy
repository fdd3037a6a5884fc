/**
 * `base64.StdEncoding` (RFC 4648, section 4: the standard alphabet with '='
 * padding): the encoder the provider applies to user-data scripts, and the
 * decoder a guest applies to read them back.
 */
module Base64 {
  import opened Wrappers

  /** The character for a 6-bit value: A-Z, a-z, 0-9, '+', '/'. */
  function Char64(n: nat): (c: char)
    requires n < 64
    ensures IsBase64Char(c) && Index64(c) == n
  {
    if n < 26 then (65 + n) as char
    else if n < 52 then (97 + n - 26) as char
    else if n < 62 then (48 + n - 52) as char
    else if n == 62 then '+'
    else '/'
  }

  predicate IsBase64Char(c: char) {
    ('A' <= c <= 'Z') || ('a' <= c <= 'z') || ('0' <= c <= '9') || c == '+' || c == '/'
  }

  function Index64(c: char): (n: nat)
    requires IsBase64Char(c)
    ensures n < 64
  {
    if 'A' <= c <= 'Z' then c as int - 65
    else if 'a' <= c <= 'z' then c as int - 97 + 26
    else if '0' <= c <= '9' then c as int - 48 + 52
    else if c == '+' then 62
    else 63
  }

  /** The four characters of three bytes: their 24 bits, six at a time. */
  function Group(b0: byte, b1: byte, b2: byte): (g: string)
    ensures |g| == 4
  {
    [Char64(b0 / 4), Char64((b0 % 4) * 16 + b1 / 16), Char64((b1 % 16) * 4 + b2 / 64), Char64(b2 % 64)]
  }

  /** The last group of a single byte, padded with two '='. */
  function OneByte(b0: byte): (g: string)
    ensures |g| == 4
  {
    [Char64(b0 / 4), Char64((b0 % 4) * 16), '=', '=']
  }

  /** The last group of two bytes, padded with one '='. */
  function TwoBytes(b0: byte, b1: byte): (g: string)
    ensures |g| == 4
  {
    [Char64(b0 / 4), Char64((b0 % 4) * 16 + b1 / 16), Char64((b1 % 16) * 4), '=']
  }

  /** `base64.StdEncoding.EncodeToString(b)`. */
  function Encode(b: seq<byte>): (r: string)
    ensures |r| == 4 * ((|b| + 2) / 3)
    decreases |b|
  {
    if |b| == 0 then ""
    else if |b| == 1 then OneByte(b[0])
    else if |b| == 2 then TwoBytes(b[0], b[1])
    else
      Group(b[0], b[1], b[2]) + Encode(b[3..])
  }

  /** The encoding uses only the 64 alphabet characters and the '=' padding. */
  lemma {:induction false} EncodeAlphabet(b: seq<byte>)
    ensures forall i :: 0 <= i < |Encode(b)| ==> IsBase64Char(Encode(b)[i]) || Encode(b)[i] == '='
    decreases |b|
  {
    if |b| >= 3 {
      EncodeAlphabet(b[3..]);
      var e := Encode(b);
      assert forall i :: 4 <= i < |e| ==> e[i] == Encode(b[3..])[i - 4];
    }
  }

  /** One group of four characters, of which the last `pad` are '='. */
  function DecodeGroup(g: string): (r: Option<seq<byte>>)
    requires |g| == 4
  {
    if !(IsBase64Char(g[0]) && IsBase64Char(g[1])) then None
    else if g[2] == '=' && g[3] == '=' then
      Some([Index64(g[0]) * 4 + Index64(g[1]) / 16])
    else if !IsBase64Char(g[2]) then None
    else if g[3] == '=' then
      Some([Index64(g[0]) * 4 + Index64(g[1]) / 16, (Index64(g[1]) % 16) * 16 + Index64(g[2]) / 4])
    else if !IsBase64Char(g[3]) then None
    else
      Some([Index64(g[0]) * 4 + Index64(g[1]) / 16, (Index64(g[1]) % 16) * 16 + Index64(g[2]) / 4,
            (Index64(g[2]) % 4) * 64 + Index64(g[3])])
  }

  /** `base64.StdEncoding.DecodeString(s)`; padding may appear only in the last group. */
  function Decode(s: string): Option<seq<byte>>
    decreases |s|
  {
    if |s| == 0 then Some([])
    else if |s| < 4 then None
    else
      match DecodeGroup(s[..4])
      case None => None
      case Some(g) =>
        if |s| == 4 then Some(g)
        else if |g| < 3 then None
        else
          match Decode(s[4..])
          case None => None
          case Some(rest) => Some(g + rest)
  }

  lemma DivMod16(q: nat, r: nat)
    requires r < 16
    ensures (q * 16 + r) / 16 == q && (q * 16 + r) % 16 == r
  {
  }

  lemma DivMod4(q: nat, r: nat)
    requires r < 4
    ensures (q * 4 + r) / 4 == q && (q * 4 + r) % 4 == r
  {
  }

  /** The two high bits of b0 and the four high bits of b1 share the second character. */
  lemma SplitBytes(b0: byte, b1: byte, b2: byte)
    ensures (b0 / 4) * 4 + ((b0 % 4) * 16 + b1 / 16) / 16 == b0
    ensures (((b0 % 4) * 16 + b1 / 16) % 16) * 16 + ((b1 % 16) * 4 + b2 / 64) / 4 == b1
    ensures (((b1 % 16) * 4 + b2 / 64) % 4) * 64 + b2 % 64 == b2
    ensures ((b1 % 16) * 4) / 4 == b1 % 16 && ((b1 % 16) * 4) % 4 == 0
  {
    DivMod16(b0 % 4, b1 / 16);
    DivMod4(b1 % 16, b2 / 64);
    DivMod4(b1 % 16, 0);
  }

  lemma FullGroup(b0: byte, b1: byte, b2: byte)
    ensures DecodeGroup(Group(b0, b1, b2)) == Some([b0, b1, b2])
  {
    SplitBytes(b0, b1, b2);
  }

  lemma OneByteGroup(b0: byte)
    ensures DecodeGroup(OneByte(b0)) == Some([b0])
  {
    SplitBytes(b0, 0, 0);
  }

  lemma TwoByteGroup(b0: byte, b1: byte)
    ensures DecodeGroup(TwoBytes(b0, b1)) == Some([b0, b1])
  {
    SplitBytes(b0, b1, 0);
  }

  /** Four characters are decoded as one group. */
  lemma DecodeOneGroup(g4: string)
    requires |g4| == 4
    ensures Decode(g4) == DecodeGroup(g4)
  {
    assert g4[..4] == g4;
  }

  lemma DecodeEncodeOne(b: seq<byte>)
    requires |b| == 1
    ensures Decode(Encode(b)) == Some(b)
  {
    OneByteGroup(b[0]);
    var e := OneByte(b[0]);
    assert Encode(b) == e;
    DecodeOneGroup(e);
    assert [b[0]] == b;
  }

  lemma DecodeEncodeTwo(b: seq<byte>)
    requires |b| == 2
    ensures Decode(Encode(b)) == Some(b)
  {
    TwoByteGroup(b[0], b[1]);
    var e := TwoBytes(b[0], b[1]);
    assert Encode(b) == e;
    DecodeOneGroup(e);
    assert [b[0], b[1]] == b;
  }

  /** A full group followed by more groups decodes to the group's bytes followed by the rest. */
  lemma DecodeCons(g4: string, rest: string, g: seq<byte>, r: seq<byte>)
    requires |g4| == 4 && DecodeGroup(g4) == Some(g) && |g| == 3
    requires Decode(rest) == Some(r)
    ensures Decode(g4 + rest) == Some(g + r)
  {
    var s := g4 + rest;
    assert s[..4] == g4 && s[4..] == rest;
    if rest == [] {
      assert s == g4;
      assert r == [];
      assert g + r == g;
    }
  }

  /** Up to two bytes make one padded group (or nothing at all). */
  lemma DecodeEncodeShort(b: seq<byte>)
    requires |b| < 3
    ensures Decode(Encode(b)) == Some(b)
  {
    if |b| == 1 {
      DecodeEncodeOne(b);
    } else if |b| == 2 {
      DecodeEncodeTwo(b);
    }
  }

  /** A full group before a text that decodes: the group's bytes come first. */
  lemma DecodeGroupBefore(b0: byte, b1: byte, b2: byte, rest: string, tail: seq<byte>)
    requires Decode(rest) == Some(tail)
    ensures Decode(Group(b0, b1, b2) + rest) == Some([b0, b1, b2] + tail)
  {
    FullGroup(b0, b1, b2);
    DecodeCons(Group(b0, b1, b2), rest, [b0, b1, b2], tail);
  }

  lemma EncodeLong(b: seq<byte>)
    requires |b| >= 3
    ensures Encode(b) == Group(b[0], b[1], b[2]) + Encode(b[3..])
  {
  }

  /** Decoding undoes encoding: the guest's `base64 -d` recovers the very bytes encoded. */
  lemma {:induction false} DecodeEncode(b: seq<byte>)
    ensures Decode(Encode(b)) == Some(b)
    decreases |b|
  {
    if |b| < 3 {
      DecodeEncodeShort(b);
    } else {
      var tail := b[3..];
      var rest := Encode(tail);
      DecodeEncode(tail);
      DecodeGroupBefore(b[0], b[1], b[2], rest, tail);
      EncodeLong(b);
      assert [b[0], b[1], b[2]] + tail == b;
    }
  }
}
