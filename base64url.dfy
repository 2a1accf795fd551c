/**
 * The unpadded base64url encoding of section 2 and Appendix C of RFC 7515,
 * as `_base64url_encode` and the decoding half of `_base64url_decode_to_json`
 * compute it: Python's `urlsafe_b64encode` with the trailing `=` stripped,
 * and `urlsafe_b64decode` after re-padding to a multiple of four characters.
 */
module Base64Url {
  import opened Wrappers
  import opened Text

  /** The character of the URL-safe alphabet (section 5 of RFC 4648) for a 6-bit value. */
  function SextetChar(v: int): (c: char)
    requires 0 <= v < 64
    ensures c != '='
  {
    if v < 26 then ('A' as int + v) as char
    else if v < 52 then ('a' as int + (v - 26)) as char
    else if v < 62 then ('0' as int + (v - 52)) as char
    else if v == 62 then '-'
    else '_'
  }

  /** The 6-bit value of an alphabet character; `None` for any other character. */
  function CharSextet(c: char): (r: Option<int>)
    ensures r.Some? ==> 0 <= r.value < 64 && SextetChar(r.value) == c
  {
    if 'A' <= c <= 'Z' then Some(c as int - 'A' as int)
    else if 'a' <= c <= 'z' then Some(c as int - 'a' as int + 26)
    else if '0' <= c <= '9' then Some(c as int - '0' as int + 52)
    else if c == '-' then Some(62)
    else if c == '_' then Some(63)
    else None
  }

  lemma SextetRoundTrip(v: int)
    requires 0 <= v < 64
    ensures CharSextet(SextetChar(v)) == Some(v)
  {
  }

  /** The four characters for three bytes. */
  function Block3(b0: byte, b1: byte, b2: byte): (r: string)
    ensures |r| == 4 && forall i :: 0 <= i < 4 ==> r[i] != '='
  {
    [SextetChar(b0 / 4), SextetChar((b0 % 4) * 16 + b1 / 16),
     SextetChar((b1 % 16) * 4 + b2 / 64), SextetChar(b2 % 64)]
  }

  /** The three characters for a final two bytes (before padding). */
  function Block2(b0: byte, b1: byte): (r: string)
    ensures |r| == 3 && forall i :: 0 <= i < 3 ==> r[i] != '='
  {
    [SextetChar(b0 / 4), SextetChar((b0 % 4) * 16 + b1 / 16), SextetChar((b1 % 16) * 4)]
  }

  /** The two characters for a final byte (before padding). */
  function Block1(b0: byte): (r: string)
    ensures |r| == 2 && forall i :: 0 <= i < 2 ==> r[i] != '='
  {
    [SextetChar(b0 / 4), SextetChar((b0 % 4) * 16)]
  }

  /** `base64.urlsafe_b64encode(data)`: groups of three bytes become four
      characters, and a final group of one or two bytes is padded with `=`. */
  function EncodePadded(d: seq<byte>): string
  {
    if |d| == 0 then ""
    else if |d| == 1 then Block1(d[0]) + "=="
    else if |d| == 2 then Block2(d[0], d[1]) + "="
    else Block3(d[0], d[1], d[2]) + EncodePadded(d[3..])
  }

  /** `_base64url_encode(data)`: the padded encoding with trailing `=` removed. */
  function Encode(d: seq<byte>): string {
    RStripChar(EncodePadded(d), '=')
  }

  /** Python's `(-n) % 4`: how many `=` bring a length up to a multiple of four. */
  function PadLength(n: nat): (k: nat)
    ensures k < 4 && (n + k) % 4 == 0
  {
    (-(n as int)) % 4
  }

  function Repeat(c: char, k: nat): (r: string)
    ensures |r| == k && forall i :: 0 <= i < k ==> r[i] == c
  {
    if k == 0 then "" else [c] + Repeat(c, k - 1)
  }

  /** One block of four characters. Padding is accepted only in the shapes
      `xy==` and `xyz=`; the bits that a padded block leaves over are ignored,
      as Python's decoder ignores them. */
  function DecodeQuad(g: string): (r: Option<seq<byte>>)
    requires |g| == 4
    ensures r.Some? ==> 1 <= |r.value| <= 3
    ensures r.Some? && |r.value| < 3 ==> g[3] == '='
  {
    match (CharSextet(g[0]), CharSextet(g[1]))
    case (Some(c0), Some(c1)) =>
      if g[2] == '=' && g[3] == '=' then Some([c0 * 4 + c1 / 16])
      else if g[3] == '=' then
        (match CharSextet(g[2])
         case Some(c2) => Some([c0 * 4 + c1 / 16, (c1 % 16) * 16 + c2 / 4])
         case None => None)
      else
        (match (CharSextet(g[2]), CharSextet(g[3]))
         case (Some(c2), Some(c3)) =>
           Some([c0 * 4 + c1 / 16, (c1 % 16) * 16 + c2 / 4, (c2 % 4) * 64 + c3])
         case _ => None)
    case _ => None
  }

  /** `urlsafe_b64decode` of a string whose length is a multiple of four:
      padding may close only the last block. */
  function DecodePadded(s: string): Option<seq<byte>>
    decreases |s|
  {
    if s == [] then Some([])
    else if |s| < 4 then None
    else
      match DecodeQuad(s[..4])
      case None => None
      case Some(q) =>
        if |q| < 3 && s[4..] != [] then None
        else
          match DecodePadded(s[4..])
          case None => None
          case Some(rest) => Some(q + rest)
  }

  /** The decoding step of `_base64url_decode_to_json`: re-pad, then decode. */
  function Decode(b64: string): (r: Option<seq<byte>>)
  {
    DecodePadded(b64 + Repeat('=', PadLength(|b64|)))
  }

  /** The encoding without its padding, block by block. */
  function EncodeBody(d: seq<byte>): (r: string)
    ensures forall i :: 0 <= i < |r| ==> r[i] != '='
  {
    if |d| == 0 then ""
    else if |d| == 1 then Block1(d[0])
    else if |d| == 2 then Block2(d[0], d[1])
    else Block3(d[0], d[1], d[2]) + EncodeBody(d[3..])
  }

  function PadFor(n: nat): string {
    if n % 3 == 1 then "==" else if n % 3 == 2 then "=" else ""
  }

  lemma {:induction false} PaddedIsBodyPlusPad(d: seq<byte>)
    ensures EncodePadded(d) == EncodeBody(d) + PadFor(|d|)
    ensures |EncodeBody(d)| == (4 * |d| + 2) / 3
  {
    if |d| >= 3 {
      PaddedIsBodyPlusPad(d[3..]);
      LengthStep(|d|);
    }
  }

  /** Three more bytes: four more characters, the same padding. */
  lemma LengthStep(n: nat)
    requires n >= 3
    ensures (4 * n + 2) / 3 == (4 * (n - 3) + 2) / 3 + 4
    ensures PadFor(n) == PadFor(n - 3)
  {
  }

  lemma {:induction false} StripPadding(body: string, k: nat)
    requires body == [] || body[|body| - 1] != '='
    ensures RStripChar(body + Repeat('=', k), '=') == body
  {
    if k > 0 {
      var s := body + Repeat('=', k);
      assert s[..|s| - 1] == body + Repeat('=', k - 1);
      StripPadding(body, k - 1);
    }
  }

  /** `_base64url_encode` never emits `=`, and its length is `ceil(4n/3)`. */
  lemma EncodeUnpadded(d: seq<byte>)
    ensures Encode(d) == EncodeBody(d)
    ensures forall i :: 0 <= i < |Encode(d)| ==> Encode(d)[i] != '='
    ensures |Encode(d)| == (4 * |d| + 2) / 3
  {
    PaddedIsBodyPlusPad(d);
    var body := EncodeBody(d);
    var pad := PadFor(|d|);
    assert pad == Repeat('=', |pad|);
    StripPadding(body, |pad|);
  }

  lemma Block3RoundTrip(b0: byte, b1: byte, b2: byte)
    ensures DecodeQuad(Block3(b0, b1, b2)) == Some([b0, b1, b2])
  {
    var c0, c1, c2, c3 := b0 / 4, (b0 % 4) * 16 + b1 / 16, (b1 % 16) * 4 + b2 / 64, b2 % 64;
    SextetRoundTrip(c0); SextetRoundTrip(c1); SextetRoundTrip(c2); SextetRoundTrip(c3);
    assert c1 / 16 == b0 % 4 && c1 % 16 == b1 / 16;
    assert c2 / 4 == b1 % 16 && c2 % 4 == b2 / 64;
  }

  lemma Block2RoundTrip(b0: byte, b1: byte)
    ensures DecodeQuad(Block2(b0, b1) + "=") == Some([b0, b1])
  {
    var c0, c1, c2 := b0 / 4, (b0 % 4) * 16 + b1 / 16, (b1 % 16) * 4;
    SextetRoundTrip(c0); SextetRoundTrip(c1); SextetRoundTrip(c2);
    assert c1 / 16 == b0 % 4 && c1 % 16 == b1 / 16;
    assert c2 / 4 == b1 % 16;
  }

  lemma Block1RoundTrip(b0: byte)
    ensures DecodeQuad(Block1(b0) + "==") == Some([b0])
  {
    var c0, c1 := b0 / 4, (b0 % 4) * 16;
    SextetRoundTrip(c0); SextetRoundTrip(c1);
    assert c1 / 16 == b0 % 4;
  }

  lemma DecodeFinalBlock(s: string, q: seq<byte>)
    requires |s| == 4 && DecodeQuad(s) == Some(q)
    ensures DecodePadded(s) == Some(q)
  {
    assert s[..4] == s && s[4..] == [];
    assert q + [] == q;
  }

  lemma DecodeEncodeShort(d: seq<byte>)
    requires 1 <= |d| <= 2
    ensures DecodePadded(EncodePadded(d)) == Some(d)
  {
    var s := EncodePadded(d);
    if |d| == 1 {
      Block1RoundTrip(d[0]);
      DecodeFinalBlock(s, [d[0]]);
      assert [d[0]] == d;
    } else {
      Block2RoundTrip(d[0], d[1]);
      DecodeFinalBlock(s, [d[0], d[1]]);
      assert [d[0], d[1]] == d;
    }
  }

  /** A full block followed by a decodable rest. */
  lemma DecodeFullBlock(block: string, rest: string, q: seq<byte>, tail: seq<byte>)
    requires |block| == 4 && DecodeQuad(block) == Some(q) && |q| == 3
    requires DecodePadded(rest) == Some(tail)
    ensures DecodePadded(block + rest) == Some(q + tail)
  {
    assert (block + rest)[..4] == block && (block + rest)[4..] == rest;
  }

  /** Three or more bytes: a full block, then the encoding of the rest. */
  lemma EncodeSplit(d: seq<byte>)
    requires |d| >= 3
    ensures EncodePadded(d) == Block3(d[0], d[1], d[2]) + EncodePadded(d[3..])
    ensures |Block3(d[0], d[1], d[2])| == 4
    ensures d == [d[0], d[1], d[2]] + d[3..]
  {
  }

  lemma DecodeEncodeStep(d: seq<byte>)
    requires |d| >= 3
    requires DecodePadded(EncodePadded(d[3..])) == Some(d[3..])
    ensures DecodePadded(EncodePadded(d)) == Some(d)
  {
    EncodeSplit(d);
    Block3RoundTrip(d[0], d[1], d[2]);
    DecodeFullBlock(Block3(d[0], d[1], d[2]), EncodePadded(d[3..]), [d[0], d[1], d[2]], d[3..]);
  }

  lemma {:induction false} DecodeEncodePadded(d: seq<byte>)
    ensures DecodePadded(EncodePadded(d)) == Some(d)
  {
    if 1 <= |d| <= 2 {
      DecodeEncodeShort(d);
    } else if |d| >= 3 {
      DecodeEncodePadded(d[3..]);
      DecodeEncodeStep(d);
    }
  }

  /** Round trip of Appendix C of RFC 7515: decoding what `_base64url_encode`
      produced gives the original bytes back. */
  lemma DecodeEncode(d: seq<byte>)
    ensures Decode(Encode(d)) == Some(d)
  {
    var body := EncodeBody(d);
    EncodeUnpadded(d);
    PaddedIsBodyPlusPad(d);
    PadMatches(|d|);
    assert EncodePadded(d) == body + Repeat('=', PadLength(|body|));
    DecodeEncodePadded(d);
  }

  /** The `=` the encoder drops are the ones the decoder puts back. */
  lemma PadMatches(n: nat)
    ensures PadFor(n) == Repeat('=', PadLength((4 * n + 2) / 3))
  {
    var q, r := n / 3, n % 3;
    assert n == 3 * q + r;
    if r == 0 {
      assert (4 * n + 2) / 3 == 4 * q;
    } else if r == 1 {
      assert (4 * n + 2) / 3 == 4 * q + 2;
    } else {
      assert (4 * n + 2) / 3 == 4 * q + 3;
    }
  }

  /** The decoder re-pads every input to a multiple of four characters, and a
      string whose length is one more than a multiple of four never decodes. */
  lemma DecodeRepads(b64: string)
    ensures (|b64| + PadLength(|b64|)) % 4 == 0
    ensures |b64| % 4 == 1 ==> Decode(b64) == None
  {
    if |b64| % 4 == 1 {
      PadOneOver(|b64|);
      DecodeOneOver(b64 + Repeat('=', 3));
    }
  }

  lemma PadOneOver(n: nat)
    requires n % 4 == 1
    ensures PadLength(n) == 3 && (n + 3) % 4 == 0
  {
  }

  lemma {:induction false} DecodeOneOver(s: string)
    requires |s| % 4 == 0 && |s| >= 4
    requires s[|s| - 3..] == "==="
    ensures DecodePadded(s) == None
  {
    if |s| == 4 {
      assert s[..4] == s;
    } else {
      assert s[4..][|s[4..]| - 3..] == "===";
      DecodeOneOver(s[4..]);
    }
  }
}
