/**
 * Base64 as defined in section 4 of RFC 4648: three octets become four
 * characters of the 64-character alphabet, and a final group of one or two
 * octets is completed with one or two `=` pad characters.
 *
 * The proxy decodes the payload of a `data:` image URL with this encoding.
 */
module Base64 {
  import opened Wrappers

  type Byte = x: int | 0 <= x < 256

  /** A value carried by one alphabet character. */
  type Sextet = x: int | 0 <= x < 64

  const PAD: char := '='

  /** The character the alphabet of RFC 4648 (Table 1) assigns to `v`. */
  function SextetChar(v: Sextet): (c: char)
    ensures CharSextet(c) == Some(v)
    ensures c != PAD && c != '\n'
  {
    if v < 26 then ('A' as int + v) as char
    else if v < 52 then ('a' as int + (v - 26)) as char
    else if v < 62 then ('0' as int + (v - 52)) as char
    else if v == 62 then '+'
    else '/'
  }

  /** The value of an alphabet character; `None` for every other character, the pad included. */
  function CharSextet(c: char): Option<Sextet> {
    if 'A' <= c <= 'Z' then Some(c as int - 'A' as int)
    else if 'a' <= c <= 'z' then Some(c as int - 'a' as int + 26)
    else if '0' <= c <= '9' then Some(c as int - '0' as int + 52)
    else if c == '+' then Some(62)
    else if c == '/' then Some(63)
    else None
  }

  // The three octets a group of four sextets carries (the inverse of EncodeTriple's split).
  function Octet0(v0: Sextet, v1: Sextet): Byte { (v0 as int) * 4 + (v1 as int) / 16 }
  function Octet1(v1: Sextet, v2: Sextet): Byte { (v1 as int % 16) * 16 + (v2 as int) / 4 }
  function Octet2(v2: Sextet, v3: Sextet): Byte { (v2 as int % 4) * 64 + v3 as int }

  /** Four characters for three octets. */
  function EncodeTriple(b0: Byte, b1: Byte, b2: Byte): string {
    [SextetChar(b0 / 4), SextetChar((b0 % 4) * 16 + b1 / 16),
     SextetChar((b1 % 16) * 4 + b2 / 64), SextetChar(b2 % 64)]
  }

  /** The encoding of `b`: full groups, then a padded final group when `|b|` is not a multiple of 3. */
  function Encode(b: seq<Byte>): (s: string)
    ensures |s| % 4 == 0 && (s == [] <==> b == [])
    ensures '\n' !in s
    decreases |b|
  {
    if |b| == 0 then ""
    else if |b| == 1 then [SextetChar(b[0] / 4), SextetChar((b[0] % 4) * 16), PAD, PAD]
    else if |b| == 2 then
      [SextetChar(b[0] / 4), SextetChar((b[0] % 4) * 16 + b[1] / 16), SextetChar((b[1] % 16) * 4), PAD]
    else EncodeTriple(b[0], b[1], b[2]) + Encode(b[3..])
  }

  /** The octets of a group of four alphabet characters, or `None` if one is outside the alphabet. */
  function DecodeFullGroup(g: string): (r: Option<seq<Byte>>)
    requires |g| == 4
    ensures r.Some? ==> |r.value| == 3
  {
    match (CharSextet(g[0]), CharSextet(g[1]), CharSextet(g[2]), CharSextet(g[3]))
    case (Some(v0), Some(v1), Some(v2), Some(v3)) =>
      Some([Octet0(v0, v1), Octet1(v1, v2), Octet2(v2, v3)])
    case _ => None
  }

  /**
   * The octets of the last group, which may end in one or two pad characters.
   * Bits left over beside the padding are ignored, as Python's decoder does.
   */
  function DecodeLastGroup(g: string): (r: Option<seq<Byte>>)
    requires |g| == 4
    ensures r.Some? ==> 1 <= |r.value| <= 3
  {
    if g[2] == PAD && g[3] == PAD then
      match (CharSextet(g[0]), CharSextet(g[1]))
      case (Some(v0), Some(v1)) => Some([Octet0(v0, v1)])
      case _ => None
    else if g[3] == PAD then
      match (CharSextet(g[0]), CharSextet(g[1]), CharSextet(g[2]))
      case (Some(v0), Some(v1), Some(v2)) => Some([Octet0(v0, v1), Octet1(v1, v2)])
      case _ => None
    else DecodeFullGroup(g)
  }

  /** The octets of two decoded stretches side by side; a failure in either is a failure. */
  function Join(head: Option<seq<Byte>>, tail: Option<seq<Byte>>): (r: Option<seq<Byte>>)
    ensures r.Some? <==> head.Some? && tail.Some?
  {
    if head.Some? && tail.Some? then Some(head.value + tail.value) else None
  }

  /** The octets of a sequence of groups: full groups first, the last one possibly padded. */
  function DecodeGroups(s: string): (r: Option<seq<Byte>>)
    requires |s| % 4 == 0
    decreases |s|
  {
    if |s| == 0 then Some([])
    else if |s| == 4 then DecodeLastGroup(s)
    else Join(DecodeFullGroup(s[..4]), DecodeGroups(s[4..]))
  }

  /**
   * The octets `s` encodes, or `None` when `s` is not a padded encoding:
   * a length that is not a multiple of 4, a character outside the alphabet,
   * or a pad character anywhere but in the last two positions.
   */
  function Decode(s: string): (r: Option<seq<Byte>>)
    ensures r.Some? ==> |s| % 4 == 0
  {
    if |s| % 4 != 0 then None else DecodeGroups(s)
  }

  lemma TripleRoundTrip(b0: Byte, b1: Byte, b2: Byte)
    ensures DecodeFullGroup(EncodeTriple(b0, b1, b2)) == Some([b0, b1, b2])
  {
    var v0, v1, v2, v3 := b0 / 4, (b0 % 4) * 16 + b1 / 16, (b1 % 16) * 4 + b2 / 64, b2 % 64;
    assert Octet0(v0, v1) == b0;
    assert Octet1(v1, v2) == b1;
    assert Octet2(v2, v3) == b2;
  }

  lemma EncodeOneRoundTrip(b0: Byte)
    ensures Decode(Encode([b0])) == Some([b0])
  {
    var s := Encode([b0]);
    assert s[2] == PAD && s[3] == PAD;
    assert Octet0(b0 / 4, (b0 % 4) * 16) == b0;
  }

  lemma EncodeTwoRoundTrip(b0: Byte, b1: Byte)
    ensures Decode(Encode([b0, b1])) == Some([b0, b1])
  {
    var s := Encode([b0, b1]);
    var v1, v2 := (b0 % 4) * 16 + b1 / 16, (b1 % 16) * 4;
    assert s[2] != PAD && s[3] == PAD;
    assert Octet0(b0 / 4, v1) == b0;
    assert Octet1(v1, v2) == b1;
  }

  lemma EncodeThreeRoundTrip(b0: Byte, b1: Byte, b2: Byte)
    ensures Decode(EncodeTriple(b0, b1, b2)) == Some([b0, b1, b2])
  {
    TripleRoundTrip(b0, b1, b2);
  }

  /** Decoding one more full group in front joins its octets in front. */
  lemma DecodeGroupsCons(g: string, rest: string)
    requires |g| == 4 && |rest| % 4 == 0 && rest != []
    ensures |g + rest| % 4 == 0
    ensures DecodeGroups(g + rest) == Join(DecodeFullGroup(g), DecodeGroups(rest))
  {
    var s := g + rest;
    assert s[..4] == g && s[4..] == rest;
  }

  /** A full group followed by further groups decodes to the group's octets followed by theirs. */
  lemma DecodeAfterGroup(g: string, head: seq<Byte>, rest: string, tail: seq<Byte>)
    requires |g| == 4 && DecodeFullGroup(g) == Some(head)
    requires |rest| % 4 == 0 && rest != [] && DecodeGroups(rest) == Some(tail)
    ensures Decode(g + rest) == Some(head + tail)
  {
    DecodeGroupsCons(g, rest);
  }

  /** Decoding undoes encoding, for every octet sequence. */
  lemma {:induction false} DecodeEncode(b: seq<Byte>)
    ensures Decode(Encode(b)) == Some(b)
    decreases |b|
  {
    if |b| == 0 {
    } else if |b| == 1 {
      EncodeOneRoundTrip(b[0]);
      assert b == [b[0]];
    } else if |b| == 2 {
      EncodeTwoRoundTrip(b[0], b[1]);
      assert b == [b[0], b[1]];
    } else {
      var rest := b[3..];
      assert b == [b[0], b[1], b[2]] + rest;
      assert Encode(b) == EncodeTriple(b[0], b[1], b[2]) + Encode(rest);
      if rest == [] {
        EncodeThreeRoundTrip(b[0], b[1], b[2]);
        assert Encode(b) == EncodeTriple(b[0], b[1], b[2]);
        assert b == [b[0], b[1], b[2]];
      } else {
        DecodeEncode(rest);
        TripleRoundTrip(b[0], b[1], b[2]);
      DecodeAfterGroup(EncodeTriple(b[0], b[1], b[2]), [b[0], b[1], b[2]], Encode(rest), rest);
      }
    }
  }

  /** A string holding a character that is neither in the alphabet nor a pad is never decoded. */
  lemma {:induction false} DecodeRejectsForeign(s: string, k: nat)
    requires k < |s| && s[k] != PAD && CharSextet(s[k]).None?
    ensures Decode(s) == None
  {
    if |s| % 4 == 0 {
      ForeignGroups(s, k);
    }
  }

  lemma {:induction false} ForeignGroups(s: string, k: nat)
    requires |s| % 4 == 0 && k < |s| && s[k] != PAD && CharSextet(s[k]).None?
    ensures DecodeGroups(s) == None
    decreases |s|
  {
    if |s| == 4 {
    } else if k < 4 {
      assert s[..4][k] == s[k];
    } else {
      assert s[4..][k - 4] == s[k];
      ForeignGroups(s[4..], k - 4);
    }
  }
}
