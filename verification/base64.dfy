/** Base64 as the Gmail body decoder uses it: the message body arrives in
    the URL-safe alphabet of section 5 of RFC 4648, is mapped to the
    standard alphabet of section 4 (`-` to `+`, `_` to `/`) and handed to
    the browser's `atob`, whose forgiving decoder is modelled here.
    `atob` yields a "binary string", one character per byte (Latin-1). */
module Base64 {
  import opened Wrappers
  import opened Seqs

  type byte = b: int | 0 <= b < 256
  type sextet = x: int | 0 <= x < 64

  /** The standard alphabet of section 4 of RFC 4648. */
  function CharOf(x: sextet): (c: char)
    ensures c != '=' && c != '-' && c != '_'
  {
    if x < 26 then ('A' as int + x) as char
    else if x < 52 then ('a' as int + x - 26) as char
    else if x < 62 then ('0' as int + x - 52) as char
    else if x == 62 then '+'
    else '/'
  }

  function SextetOf(c: char): Option<sextet> {
    if 'A' <= c <= 'Z' then Some(c as int - 'A' as int)
    else if 'a' <= c <= 'z' then Some(c as int - 'a' as int + 26)
    else if '0' <= c <= '9' then Some(c as int - '0' as int + 52)
    else if c == '+' then Some(62)
    else if c == '/' then Some(63)
    else None
  }

  lemma SextetOfCharOf(x: sextet)
    ensures SextetOf(CharOf(x)) == Some(x)
  {
  }

  /** `.replace(/-/g, '+').replace(/_/g, '/')`: URL-safe alphabet to standard. */
  function UrlToStandard(s: string): (r: string)
    ensures |r| == |s|
    ensures forall i :: 0 <= i < |s| ==> r[i] == (if s[i] == '-' then '+' else if s[i] == '_' then '/' else s[i])
  {
    seq(|s|, i requires 0 <= i < |s| => if s[i] == '-' then '+' else if s[i] == '_' then '/' else s[i])
  }

  /** The mirror of `UrlToStandard`: standard alphabet to the section 5
      alphabet, as the sender's base64url encoder produces it. The client
      never calls it; it states the input side of the `DecodeUrlEncodeUrl`
      round trip. */
  function StandardToUrl(s: string): (r: string)
    ensures |r| == |s|
    ensures forall i :: 0 <= i < |s| ==> r[i] == (if s[i] == '+' then '-' else if s[i] == '/' then '_' else s[i])
  {
    seq(|s|, i requires 0 <= i < |s| => if s[i] == '+' then '-' else if s[i] == '/' then '_' else s[i])
  }

  // ---------------------------------------------------------------- encoding

  /** Splits bytes into 6-bit groups, three bytes to four sextets; a final
      one or two bytes give two or three sextets, low bits zero. */
  function EncodeSextets(b: seq<byte>): (r: seq<sextet>)
    ensures |r| % 4 != 1
    decreases |b|
  {
    if |b| == 0 then []
    else if |b| == 1 then [b[0] / 4, (b[0] % 4) * 16]
    else if |b| == 2 then [b[0] / 4, (b[0] % 4) * 16 + b[1] / 16, (b[1] % 16) * 4]
    else [b[0] / 4, (b[0] % 4) * 16 + b[1] / 16, (b[1] % 16) * 4 + b[2] / 64, b[2] % 64]
         + EncodeSextets(b[3..])
  }

  function Padding(n: nat): string {
    if n % 4 == 2 then "==" else if n % 4 == 3 then "=" else ""
  }

  /** Padding completes every length but one more than a multiple of four. */
  lemma PaddedLength(n: nat)
    requires n % 4 != 1
    ensures (n + |Padding(n)|) % 4 == 0
  {
  }

  /** Standard padded base64 of section 4 of RFC 4648. */
  function Encode(b: seq<byte>): (r: string)
    ensures |r| % 4 == 0
  {
    var xs := EncodeSextets(b);
    PaddedLength(|xs|);
    seq(|xs|, i requires 0 <= i < |xs| => CharOf(xs[i])) + Padding(|xs|)
  }

  /** Base64url of section 5 of RFC 4648, as a Gmail payload carries it. */
  function EncodeUrl(b: seq<byte>): string {
    StandardToUrl(Encode(b))
  }

  // ---------------------------------------------------------------- decoding

  predicate IsAsciiWhitespace(c: char) {
    c == '\t' || c == '\n' || c == '\U{000C}' || c == '\r' || c == ' '
  }

  function RemoveWhitespace(s: string): (r: string)
    ensures |r| <= |s|
  {
    if |s| == 0 then ""
    else if IsAsciiWhitespace(s[0]) then RemoveWhitespace(s[1..])
    else [s[0]] + RemoveWhitespace(s[1..])
  }

  /** With a length divisible by four, one or two trailing `=` are dropped. */
  function StripPadding(s: string): string {
    if |s| % 4 == 0 && |s| >= 2 && s[|s| - 2..] == "==" then s[..|s| - 2]
    else if |s| % 4 == 0 && |s| >= 1 && s[|s| - 1] == '=' then s[..|s| - 1]
    else s
  }

  function Sextets(s: string): (r: Option<seq<sextet>>)
    ensures r.Some? ==> |r.value| == |s|
  {
    if |s| == 0 then Some([])
    else match (SextetOf(s[0]), Sextets(s[1..]))
      case (Some(x), Some(rest)) => Some([x] + rest)
      case _ => None
  }

  function DecodeSextets(xs: seq<sextet>): seq<byte>
    requires |xs| % 4 != 1
    decreases |xs|
  {
    if |xs| == 0 then []
    else if |xs| == 2 then [High(xs[0], xs[1])]
    else if |xs| == 3 then [High(xs[0], xs[1]), Middle(xs[1], xs[2])]
    else [High(xs[0], xs[1]), Middle(xs[1], xs[2]), Low(xs[2], xs[3])] + DecodeSextets(xs[4..])
  }

  /** The three bytes of a four-sextet group. */
  function High(w: sextet, x: sextet): byte { (w as int) * 4 + (x as int) / 16 }
  function Middle(x: sextet, y: sextet): byte { ((x as int) % 16) * 16 + (y as int) / 4 }
  function Low(y: sextet, z: sextet): byte { ((y as int) % 4) * 64 + z as int }

  /** `atob` (the forgiving-base64 decode): None where `atob` throws. */
  function Decode(s: string): (r: Option<seq<byte>>)
  {
    var t := StripPadding(RemoveWhitespace(s));
    if |t| % 4 == 1 then None
    else match Sextets(t)
      case None => None
      case Some(xs) => Some(DecodeSextets(xs))
  }

  /** `atob`'s result: one character per decoded byte. */
  function Latin1(b: seq<byte>): (r: string)
    ensures |r| == |b|
    ensures forall i :: 0 <= i < |b| ==> r[i] as int == b[i]
  {
    seq(|b|, i requires 0 <= i < |b| => b[i] as char)
  }

  /** The body decoder: base64url to standard, then `atob`. */
  function DecodeUrl(data: string): (r: Option<string>)
    ensures r.Some? <==> Decode(UrlToStandard(data)).Some?
  {
    match Decode(UrlToStandard(data))
    case None => None
    case Some(b) => Some(Latin1(b))
  }

  // ---------------------------------------------------------------- round trip

  lemma {:induction false} DecodeEncodeSextets(b: seq<byte>)
    ensures DecodeSextets(EncodeSextets(b)) == b
    decreases |b|
  {
    if |b| == 1 || |b| == 2 {
      DecodeEncodeShort(b);
    } else if |b| >= 3 {
      DecodeEncodeSextets(b[3..]);
      DecodeEncodeFront(b);
    }
  }

  /** One or two final bytes come back from their sextets. */
  lemma DecodeEncodeShort(b: seq<byte>)
    requires |b| == 1 || |b| == 2
    ensures DecodeSextets(EncodeSextets(b)) == b
  {
    if |b| == 1 {
      assert b == [b[0]];
      DecodeEncodeOne(b[0]);
    } else {
      assert b == [b[0], b[1]];
      DecodeEncodeTwo(b[0], b[1]);
    }
  }

  /** Three leading bytes come back in front of the decoded rest. */
  lemma DecodeEncodeFront(b: seq<byte>)
    requires |b| >= 3 && DecodeSextets(EncodeSextets(b[3..])) == b[3..]
    ensures DecodeSextets(EncodeSextets(b)) == b
  {
    EncodeFront(b);
    DecodeThree(b[0], b[1], b[2], EncodeSextets(b[3..]));
    FrontThree(b);
  }

  /** The four sextets of three bytes. */
  function Quad(x: byte, y: byte, z: byte): (r: seq<sextet>)
    ensures |r| == 4
  {
    [x / 4, (x % 4) * 16 + y / 16, (y % 16) * 4 + z / 64, z % 64]
  }

  /** Three or more bytes encode their first three as a group of four. */
  lemma EncodeFront(b: seq<byte>)
    requires |b| >= 3
    ensures EncodeSextets(b) == Quad(b[0], b[1], b[2]) + EncodeSextets(b[3..])
  {
  }

  /** A group of four sextets in front decodes to its three bytes in front. */
  lemma DecodeThree(x: byte, y: byte, z: byte, rest: seq<sextet>)
    requires |rest| % 4 != 1
    ensures DecodeSextets(Quad(x, y, z) + rest) == [x, y, z] + DecodeSextets(rest)
  {
    var q := Quad(x, y, z);
    DecodeGroup(q, rest);
    QuadBytes(x, y, z);
  }

  /** The three bytes come back from their group of four. */
  lemma QuadBytes(x: byte, y: byte, z: byte)
    ensures var q := Quad(x, y, z);
      [High(q[0], q[1]), Middle(q[1], q[2]), Low(q[2], q[3])] == [x, y, z]
  {
    HighOf(x, y / 16);
    MiddleOf(x % 4, y, z / 64);
    LowOf(y % 16, z);
  }

  /** A final single byte comes back from its two sextets. */
  lemma DecodeEncodeOne(x: byte)
    ensures DecodeSextets(EncodeSextets([x])) == [x]
  {
    HighOf(x, 0);
  }

  /** A final pair of bytes comes back from its three sextets. */
  lemma DecodeEncodeTwo(x: byte, y: byte)
    ensures DecodeSextets(EncodeSextets([x, y])) == [x, y]
  {
    HighOf(x, y / 16);
    MiddleOf(x % 4, y, 0);
  }

  /** A leading group of four sextets decodes to three bytes in front. */
  lemma DecodeGroup(g: seq<sextet>, rest: seq<sextet>)
    requires |g| == 4 && |rest| % 4 != 1
    ensures DecodeSextets(g + rest) == [High(g[0], g[1]), Middle(g[1], g[2]), Low(g[2], g[3])] + DecodeSextets(rest)
  {
    assert (g + rest)[4..] == rest;
  }

  /** The first byte of a group comes back from its first two sextets. */
  lemma HighOf(b0: byte, r: int)
    requires 0 <= r < 16
    ensures High(b0 / 4, (b0 % 4) * 16 + r) == b0
  {
  }

  /** The second byte comes back from the second and third sextets. */
  lemma MiddleOf(q: int, b1: byte, r: int)
    requires 0 <= q < 4 && 0 <= r < 4
    ensures Middle(q * 16 + b1 / 16, (b1 % 16) * 4 + r) == b1
  {
  }

  /** The third byte comes back from the last two sextets. */
  lemma LowOf(q: int, b2: byte)
    requires 0 <= q < 16
    ensures Low(q * 4 + b2 / 64, b2 % 64) == b2
  {
  }

  lemma {:induction false} SextetsOfChars(xs: seq<sextet>)
    ensures Sextets(seq(|xs|, i requires 0 <= i < |xs| => CharOf(xs[i]))) == Some(xs)
    decreases |xs|
  {
    if |xs| > 0 {
      var s := seq(|xs|, i requires 0 <= i < |xs| => CharOf(xs[i]));
      var s' := seq(|xs| - 1, i requires 0 <= i < |xs| - 1 => CharOf(xs[1..][i]));
      assert s[1..] == s';
      SextetsOfChars(xs[1..]);
      SextetOfCharOf(xs[0]);
      assert xs == [xs[0]] + xs[1..];
    }
  }

  lemma NoWhitespaceUnchanged(s: string)
    requires forall i :: 0 <= i < |s| ==> !IsAsciiWhitespace(s[i])
    ensures RemoveWhitespace(s) == s
  {
    if |s| > 0 {
      NoWhitespaceUnchanged(s[1..]);
      assert s == [s[0]] + s[1..];
    }
  }

  /** Stripping undoes the padding of text that holds no `=` itself. */
  lemma StripEncoded(body: string)
    requires |body| % 4 != 1 && '=' !in body
    ensures StripPadding(body + Padding(|body|)) == body
  {
    var s := body + Padding(|body|);
    if |body| % 4 == 2 {
      assert s[|s| - 2..] == "==";
      assert s[..|s| - 2] == body;
    } else if |body| % 4 == 3 {
      assert s[|s| - 2] == body[|body| - 1];
      assert s[..|s| - 1] == body;
    } else {
      assert s == body;
      if |s| >= 1 {
        assert s[|s| - 1] == body[|body| - 1];
      }
    }
  }

  /** Standard decoding undoes standard encoding. */
  lemma DecodeEncode(b: seq<byte>)
    ensures Decode(Encode(b)) == Some(b)
  {
    var xs := EncodeSextets(b);
    var body := seq(|xs|, i requires 0 <= i < |xs| => CharOf(xs[i]));
    var s := Encode(b);
    assert s == body + Padding(|xs|);
    NoWhitespaceUnchanged(s);
    StripEncoded(body);
    SextetsOfChars(xs);
    DecodeEncodeSextets(b);
  }

  /** Encoded text never holds `-` or `_`, so mapping the URL-safe alphabet
      back to the standard one recovers the standard encoding. */
  lemma UrlToStandardOfEncodeUrl(b: seq<byte>)
    ensures UrlToStandard(EncodeUrl(b)) == Encode(b)
  {
    var s := Encode(b);
    var xs := EncodeSextets(b);
    forall i | 0 <= i < |s|
      ensures s[i] != '-' && s[i] != '_'
    {
      if i < |xs| {
        assert s[i] == CharOf(xs[i]);
      }
    }
  }

  /** Decoding the base64url encoding of a byte string gives back that byte
      string, as the text `atob` returns. */
  lemma DecodeUrlEncodeUrl(b: seq<byte>)
    ensures DecodeUrl(EncodeUrl(b)) == Some(Latin1(b))
  {
    UrlToStandardOfEncodeUrl(b);
    DecodeEncode(b);
  }
}
