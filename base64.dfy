/**
 * Base 64 encoding with the standard alphabet and `=` padding
 * (section 4 of RFC 4648), as PHP's `base64_encode` produces it, and a
 * decoder that undoes it.
 */
module Base64 {
  import opened Wrappers

  type byte = bv8

  /** A 6-bit group: an index into the alphabet. */
  type sextet = x: bv8 | x < 64

  /** Table 1 of RFC 4648: `A`–`Z`, `a`–`z`, `0`–`9`, `+`, `/`. */
  function CharOf(i: sextet): (c: char)
    ensures c != '='
    ensures IndexOf(c) == Some(i)
  {
    if i < 26 then ('A' as int + i as int) as char
    else if i < 52 then ('a' as int + (i as int - 26)) as char
    else if i < 62 then ('0' as int + (i as int - 52)) as char
    else if i == 62 then '+'
    else '/'
  }

  /** The alphabet index of a character; `None` for `=` and every other character outside the alphabet. */
  function IndexOf(c: char): (r: Option<sextet>)
    ensures c == '=' ==> r == None
  {
    if 'A' <= c <= 'Z' then Some((c as int - 'A' as int) as bv8)
    else if 'a' <= c <= 'z' then Some((c as int - 'a' as int + 26) as bv8)
    else if '0' <= c <= '9' then Some((c as int - '0' as int + 52) as bv8)
    else if c == '+' then Some(62)
    else if c == '/' then Some(63)
    else None
  }

  /** Three bytes as four characters. */
  function EncodeTriple(a: byte, b: byte, c: byte): (s: string)
    ensures |s| == 4 && '=' !in s
  {
    [CharOf(a >> 2), CharOf(((a & 3) << 4) | (b >> 4)), CharOf(((b & 15) << 2) | (c >> 6)), CharOf(c & 63)]
  }

  /** A final single byte: two characters and two pad characters. */
  function EncodeSingle(a: byte): (s: string)
    ensures |s| == 4 && s[2] == '=' && s[3] == '='
  {
    [CharOf(a >> 2), CharOf((a & 3) << 4), '=', '=']
  }

  /** A final pair of bytes: three characters and one pad character. */
  function EncodePair(a: byte, b: byte): (s: string)
    ensures |s| == 4 && s[2] != '=' && s[3] == '='
  {
    [CharOf(a >> 2), CharOf(((a & 3) << 4) | (b >> 4)), CharOf((b & 15) << 2), '=']
  }

  /** `base64_encode`: the output is 4·⌈n/3⌉ characters long for n input bytes. */
  function Encode(data: seq<byte>): (s: string)
    ensures |s| == 4 * ((|data| + 2) / 3)
    decreases |data|
  {
    if |data| == 0 then []
    else if |data| == 1 then EncodeSingle(data[0])
    else if |data| == 2 then EncodePair(data[0], data[1])
    else EncodeTriple(data[0], data[1], data[2]) + Encode(data[3..])
  }

  /** Four alphabet characters as three bytes. */
  function DecodeQuad(q: string): Option<seq<byte>>
    requires |q| == 4
  {
    match (IndexOf(q[0]), IndexOf(q[1]), IndexOf(q[2]), IndexOf(q[3]))
    case (Some(w), Some(x), Some(y), Some(z)) =>
      Some([((w as byte) << 2) | (x >> 4), (((x as byte) & 15) << 4) | (y >> 2), (((y as byte) & 3) << 6) | z])
    case _ => None
  }

  /** The last group of four, which may end in one or two pad characters. */
  function DecodeLast(q: string): Option<seq<byte>>
    requires |q| == 4
  {
    if q[2] == '=' && q[3] == '=' then
      match (IndexOf(q[0]), IndexOf(q[1]))
      case (Some(w), Some(x)) => Some([((w as byte) << 2) | (x >> 4)])
      case _ => None
    else if q[3] == '=' then
      match (IndexOf(q[0]), IndexOf(q[1]), IndexOf(q[2]))
      case (Some(w), Some(x), Some(y)) => Some([((w as byte) << 2) | (x >> 4), (((x as byte) & 15) << 4) | (y >> 2)])
      case _ => None
    else DecodeQuad(q)
  }

  /** The receiving side of the encoding: `None` for text that is not padded base 64. */
  function Decode(s: string): Option<seq<byte>>
    decreases |s|
  {
    if |s| == 0 then Some([])
    else if |s| < 4 then None
    else if |s| == 4 then DecodeLast(s)
    else
      match (DecodeQuad(s[..4]), Decode(s[4..]))
      case (Some(head), Some(tail)) => Some(head + tail)
      case _ => None
  }

  lemma TripleRoundTrip(a: byte, b: byte, c: byte)
    ensures DecodeQuad(EncodeTriple(a, b, c)) == Some([a, b, c])
    ensures DecodeLast(EncodeTriple(a, b, c)) == Some([a, b, c])
  {
  }

  lemma SingleRoundTrip(a: byte)
    ensures DecodeLast(EncodeSingle(a)) == Some([a])
  {
  }

  lemma PairRoundTrip(a: byte, b: byte)
    ensures DecodeLast(EncodePair(a, b)) == Some([a, b])
  {
  }

  /** Decoding the encoded text gives back exactly the bytes that were encoded. */
  lemma {:induction false} DecodeEncode(data: seq<byte>)
    ensures Decode(Encode(data)) == Some(data)
    decreases |data|
  {
    if |data| == 1 {
      SingleRoundTrip(data[0]);
      assert data == [data[0]];
    } else if |data| == 2 {
      PairRoundTrip(data[0], data[1]);
      assert data == [data[0], data[1]];
    } else if |data| >= 3 {
      var head := EncodeTriple(data[0], data[1], data[2]);
      var tail := Encode(data[3..]);
      assert Encode(data) == head + tail;
      TripleRoundTrip(data[0], data[1], data[2]);
      assert data == [data[0], data[1], data[2]] + data[3..];
      if |data| == 3 {
        assert tail == [];
        assert head + tail == head;
        assert data == [data[0], data[1], data[2]];
      } else {
        DecodeEncode(data[3..]);
        assert |tail| >= 4;
        assert (head + tail)[..4] == head;
        assert (head + tail)[4..] == tail;
        assert Decode(head + tail) == Some([data[0], data[1], data[2]] + data[3..]);
      }
    }
  }

  /** The short test vectors of section 10 of RFC 4648: "", "M", "Ma", "Man". */
  lemma KnownAnswersShort()
    ensures Encode([]) == ""
    ensures Encode([77]) == "TQ=="
    ensures Encode([77, 97]) == "TWE="
    ensures Encode([77, 97, 110]) == "TWFu"
  {
    assert Encode([77, 97, 110]) == EncodeTriple(77, 97, 110) + Encode([]);
  }

  /** The last two alphabet positions, 62 and 63, are `+` and `/`. */
  lemma KnownAnswerHighAlphabet()
    ensures Encode([251, 255]) == "+/8="
  {
    assert Encode([251, 255]) == EncodePair(251, 255);
  }

  /** The test vectors "foob" and "foobar" of section 10 of RFC 4648. */
  lemma KnownAnswersFoobar()
    ensures Encode([102, 111, 111, 98]) == "Zm9vYg=="
    ensures Encode([102, 111, 111, 98, 97, 114]) == "Zm9vYmFy"
  {
    assert EncodeTriple(102, 111, 111) == "Zm9v";
    assert Encode([102, 111, 111, 98]) == EncodeTriple(102, 111, 111) + Encode([98]);
    assert Encode([98]) == "Yg==";
    assert Encode([102, 111, 111, 98, 97, 114]) == EncodeTriple(102, 111, 111) + Encode([98, 97, 114]);
    assert Encode([98, 97, 114]) == EncodeTriple(98, 97, 114) + Encode([]);
    assert EncodeTriple(98, 97, 114) == "YmFy";
  }

  /** Hence the encoding is injective: different byte strings never share an encoding. */
  lemma EncodeInjective(x: seq<byte>, y: seq<byte>)
    requires Encode(x) == Encode(y)
    ensures x == y
  {
    DecodeEncode(x);
    DecodeEncode(y);
  }
}
