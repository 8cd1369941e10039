/**
 * The byte encodings behind an HTTP Basic `Authorization` header: a string's UTF-8 bytes
 * (`str.encode()`) and their base64 text (`base64.b64encode`, the standard alphabet with `=`
 * padding of section 4 of RFC 4648), with the decoder that inverts it.
 */
module Base64 {
  import opened Json

  newtype byte = x: int | 0 <= x < 256

  /** The character of a 6-bit value in the base64 alphabet `A-Z a-z 0-9 + /`. */
  function Char(i: int): (c: char)
    requires 0 <= i < 64
    ensures c != '='
  {
    if i < 26 then ('A' as int + i) as char
    else if i < 52 then ('a' as int + i - 26) as char
    else if i < 62 then ('0' as int + i - 52) as char
    else if i == 62 then '+'
    else '/'
  }

  /** The 6-bit value of an alphabet character; -1 for any other character. */
  function Value(c: char): (v: int)
    ensures -1 <= v < 64
  {
    if 'A' <= c <= 'Z' then c as int - 'A' as int
    else if 'a' <= c <= 'z' then c as int - 'a' as int + 26
    else if '0' <= c <= '9' then c as int - '0' as int + 52
    else if c == '+' then 62
    else if c == '/' then 63
    else -1
  }

  /** Reading a character back gives the value it was written from. */
  lemma ValueChar(i: int)
    requires 0 <= i < 64
    ensures Value(Char(i)) == i
  {
  }

  /** Three bytes as four characters: the 24 bits cut into four 6-bit values, high bits first. */
  function Quad(a: int, b: int, c: int): string
    requires 0 <= a < 256 && 0 <= b < 256 && 0 <= c < 256
  {
    [Char(a / 4), Char(a % 4 * 16 + b / 16), Char(b % 16 * 4 + c / 64), Char(c % 64)]
  }

  /** `base64.b64encode(bs)`: whole groups of three bytes, then one or two left-over bytes padded with `=`. */
  function Encode(bs: seq<byte>): string {
    if |bs| == 0 then ""
    else if |bs| == 1 then
      var a := bs[0] as int;
      [Char(a / 4), Char(a % 4 * 16), '=', '=']
    else if |bs| == 2 then
      var a, b := bs[0] as int, bs[1] as int;
      [Char(a / 4), Char(a % 4 * 16 + b / 16), Char(b % 16 * 4), '=']
    else Quad(bs[0] as int, bs[1] as int, bs[2] as int) + Encode(bs[3..])
  }

  /** The three bytes four 6-bit values stand for. */
  function Bytes(w: int, x: int, y: int, z: int): seq<byte>
    requires 0 <= w < 64 && 0 <= x < 64 && 0 <= y < 64 && 0 <= z < 64
  {
    [(w * 4 + x / 16) as byte, (x % 16 * 16 + y / 4) as byte, (y % 4 * 64 + z) as byte]
  }

  /**
   * The bytes of a base64 text; None for text that is not a whole number of four-character
   * groups of alphabet characters, with `=` padding allowed only at the end.
   */
  function Decode(s: string): Option<seq<byte>>
    decreases |s|
  {
    if s == [] then Some([])
    else if |s| < 4 then None
    else
      var w, x, y, z := Value(s[0]), Value(s[1]), Value(s[2]), Value(s[3]);
      if w < 0 || x < 0 then None
      else if |s| == 4 && s[2] == '=' && s[3] == '=' then Some(Bytes(w, x, 0, 0)[..1])
      else if y < 0 then None
      else if |s| == 4 && s[3] == '=' then Some(Bytes(w, x, y, 0)[..2])
      else if z < 0 then None
      else match Decode(s[4..])
        case None => None
        case Some(rest) => Some(Bytes(w, x, y, z) + rest)
  }

  /** The four values written for three bytes give the three bytes back. */
  lemma QuadBytes(a: int, b: int, c: int)
    requires 0 <= a < 256 && 0 <= b < 256 && 0 <= c < 256
    ensures var q := Quad(a, b, c);
      && Value(q[0]) == a / 4 && Value(q[1]) == a % 4 * 16 + b / 16
      && Value(q[2]) == b % 16 * 4 + c / 64 && Value(q[3]) == c % 64
      && Bytes(a / 4, a % 4 * 16 + b / 16, b % 16 * 4 + c / 64, c % 64) == [a as byte, b as byte, c as byte]
  {
    ValueChar(a / 4);
    ValueChar(a % 4 * 16 + b / 16);
    ValueChar(b % 16 * 4 + c / 64);
    ValueChar(c % 64);
    assert (a % 4 * 16 + b / 16) / 16 == a % 4;
    assert (a % 4 * 16 + b / 16) % 16 == b / 16;
    assert (b % 16 * 4 + c / 64) / 4 == b % 16;
    assert (b % 16 * 4 + c / 64) % 4 == c / 64;
  }

  /** A full group of four alphabet characters in front of decodable text. */
  lemma DecodeCons(q: string, rest: string)
    requires |q| == 4 && forall i :: 0 <= i < 4 ==> Value(q[i]) >= 0
    requires Decode(rest).Some?
    ensures Decode(q + rest) == Some(Bytes(Value(q[0]), Value(q[1]), Value(q[2]), Value(q[3])) + Decode(rest).value)
  {
    var s := q + rest;
    assert s[..4] == q && s[4..] == rest;
    assert s[0] == q[0] && s[1] == q[1] && s[2] == q[2] && s[3] == q[3];
  }

  /** One left-over byte: two characters and two `=`. */
  lemma DecodeOne(bs: seq<byte>)
    requires |bs| == 1
    ensures Decode(Encode(bs)) == Some(bs)
  {
    var a := bs[0] as int;
    var s := Encode(bs);
    SplitOne(a);
    ValueChar(a / 4);
    ValueChar(a % 4 * 16);
    assert Value(s[0]) == a / 4 && Value(s[1]) == a % 4 * 16 && s[2] == '=' && s[3] == '=';
    var r := Bytes(a / 4, a % 4 * 16, 0, 0);
    assert r[0] as int == a;
    assert r[..1] == bs;
  }

  /** Two left-over bytes: three characters and one `=`. */
  lemma DecodeTwo(bs: seq<byte>)
    requires |bs| == 2
    ensures Decode(Encode(bs)) == Some(bs)
  {
    var a, b := bs[0] as int, bs[1] as int;
    var x, y := a % 4 * 16 + b / 16, b % 16 * 4;
    SplitTwo(a, b);
    var s := Encode(bs);
    assert s == [Char(a / 4), Char(x), Char(y), '='];
    ValueChar(a / 4);
    ValueChar(x);
    ValueChar(y);
    var r := Bytes(a / 4, x, y, 0);
    assert r[0] as int == a && r[1] as int == b;
    assert r[..2] == bs;
  }

  /** The text is four characters for every started group of three bytes. */
  lemma {:induction false} EncodeLength(bs: seq<byte>)
    ensures |Encode(bs)| == (|bs| + 2) / 3 * 4
    decreases |bs|
  {
    if |bs| >= 3 {
      EncodeLength(bs[3..]);
      assert (|bs| + 2) / 3 == (|bs[3..]| + 2) / 3 + 1;
    }
  }

  /** The bit arithmetic behind two left-over bytes. */
  lemma SplitTwo(a: int, b: int)
    requires 0 <= a < 256 && 0 <= b < 256
    ensures var x, y := a % 4 * 16 + b / 16, b % 16 * 4;
      && 0 <= x < 64 && 0 <= y < 64
      && a / 4 * 4 + x / 16 == a && x % 16 * 16 + y / 4 == b
  {
    var x := a % 4 * 16 + b / 16;
    assert x / 16 == a % 4 && x % 16 == b / 16;
  }

  /** The bit arithmetic behind one left-over byte. */
  lemma SplitOne(a: int)
    requires 0 <= a < 256
    ensures 0 <= a % 4 * 16 < 64 && a / 4 * 4 + a % 4 * 16 / 16 == a
  {
  }

  /** The four characters of three bytes, in front of decodable text, decode to those bytes. */
  lemma DecodeQuad(a: int, b: int, c: int, rest: string)
    requires 0 <= a < 256 && 0 <= b < 256 && 0 <= c < 256
    requires Decode(rest).Some?
    ensures Decode(Quad(a, b, c) + rest) == Some([a as byte, b as byte, c as byte] + Decode(rest).value)
  {
    QuadBytes(a, b, c);
    DecodeCons(Quad(a, b, c), rest);
  }

  /** A whole group of three bytes in front of bytes whose text decodes back. */
  lemma DecodeStep(group: seq<byte>, tail: seq<byte>)
    requires |group| == 3 && Decode(Encode(tail)) == Some(tail)
    ensures Decode(Encode(group + tail)) == Some(group + tail)
  {
    var bs := group + tail;
    assert bs[3..] == tail;
    assert [bs[0], bs[1], bs[2]] == group;
    DecodeQuad(bs[0] as int, bs[1] as int, bs[2] as int, Encode(tail));
  }

  /** Decoding what was encoded gives the bytes back (section 4 of RFC 4648). */
  lemma {:induction false} DecodeEncode(bs: seq<byte>)
    ensures Decode(Encode(bs)) == Some(bs)
    decreases |bs|
  {
    if |bs| == 1 {
      DecodeOne(bs);
    } else if |bs| == 2 {
      DecodeTwo(bs);
    } else if |bs| >= 3 {
      DecodeEncode(bs[3..]);
      DecodeStep(bs[..3], bs[3..]);
      assert bs[..3] + bs[3..] == bs;
    }
  }

  /** The UTF-8 bytes of one character (RFC 3629). */
  function CharBytes(ch: char): (r: seq<byte>)
    ensures 1 <= |r| <= 4
  {
    var n := ch as int;
    if n < 0x80 then [n as byte]
    else if n < 0x800 then [(0xC0 + n / 64) as byte, (0x80 + n % 64) as byte]
    else if n < 0x10000 then [(0xE0 + n / 4096) as byte, (0x80 + n / 64 % 64) as byte, (0x80 + n % 64) as byte]
    else [(0xF0 + n / 262144) as byte, (0x80 + n / 4096 % 64) as byte, (0x80 + n / 64 % 64) as byte, (0x80 + n % 64) as byte]
  }

  /** `s.encode()`: the UTF-8 bytes of a string, character by character. */
  function Utf8(s: string): seq<byte> {
    if s == [] then [] else Utf8(s[..|s| - 1]) + CharBytes(s[|s| - 1])
  }

  /** Encoding a concatenation encodes the parts one after the other. */
  lemma {:induction false} Utf8Append(s: string, t: string)
    ensures Utf8(s + t) == Utf8(s) + Utf8(t)
  {
    if t == [] {
      assert s + t == s;
    } else {
      assert (s + t)[..|s + t| - 1] == s + t[..|t| - 1];
      Utf8Append(s, t[..|t| - 1]);
    }
  }

  /** An ASCII string's bytes are its character codes. */
  lemma {:induction false} Utf8Ascii(s: string)
    requires forall i :: 0 <= i < |s| ==> s[i] as int < 0x80
    ensures |Utf8(s)| == |s| && forall i :: 0 <= i < |s| ==> Utf8(s)[i] as int == s[i] as int
  {
    if s != [] {
      Utf8Ascii(s[..|s| - 1]);
    }
  }

  /** `f"Basic {base64(user:secret)}"`: the credentials of section 2 of RFC 7617. */
  function BasicAuth(user: string, secret: string): string {
    "Basic " + Encode(Utf8(user + ":" + secret))
  }

  /** The header carries the user's bytes, a colon and the secret's bytes, recoverable by decoding. */
  lemma BasicAuthDecodes(user: string, secret: string)
    ensures var h := BasicAuth(user, secret);
      h[..6] == "Basic " && Decode(h[6..]) == Some(Utf8(user) + [':' as int as byte] + Utf8(secret))
  {
    var h := BasicAuth(user, secret);
    assert h[6..] == Encode(Utf8(user + ":" + secret));
    DecodeEncode(Utf8(user + ":" + secret));
    Utf8Append(user + ":", secret);
    Utf8Append(user, ":");
    assert Utf8(":") == [':' as int as byte] by {
      assert ":"[..0] == [];
    }
  }
}
