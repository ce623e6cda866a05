/**
 * The standard base64 encoding of section 4 of RFC 4648 with '=' padding, as the
 * HTML pipeline decodes its payload: carriage returns and line feeds are ignored
 * wherever they occur, the remaining text must be whole four-character quanta, a
 * padded quantum may only come last, and the unused bits of a padded quantum are
 * not checked.
 */
module Base64 {
  import opened Wrappers

  type byte = x: int | 0 <= x < 256

  /** The 64 characters of the alphabet, in value order. */
  predicate IsAlphabet(c: char)
  {
    ('A' <= c <= 'Z') || ('a' <= c <= 'z') || ('0' <= c <= '9') || c == '+' || c == '/'
  }

  /** The character standing for a six-bit value. */
  function EncodeChar(v: int): (c: char)
    requires 0 <= v < 64
    ensures IsAlphabet(c)
  {
    if v < 26 then ('A' as int + v) as char
    else if v < 52 then ('a' as int + v - 26) as char
    else if v < 62 then ('0' as int + v - 52) as char
    else if v == 62 then '+'
    else '/'
  }

  /** The six-bit value of an alphabet character. */
  function DecodeChar(c: char): (v: int)
    requires IsAlphabet(c)
    ensures 0 <= v < 64
  {
    if 'A' <= c <= 'Z' then c as int - 'A' as int
    else if 'a' <= c <= 'z' then c as int - 'a' as int + 26
    else if '0' <= c <= '9' then c as int - '0' as int + 52
    else if c == '+' then 62
    else 63
  }

  /** Encoding a character's value gives back the character. */
  lemma EncodeDecodeChar(c: char)
    requires IsAlphabet(c)
    ensures EncodeChar(DecodeChar(c)) == c
  {
  }

  /** Decoding a character gives back the value it was encoded from. */
  lemma DecodeEncodeChar(v: int)
    requires 0 <= v < 64
    ensures DecodeChar(EncodeChar(v)) == v
  {
  }

  /** The text with every carriage return and line feed removed. */
  function StripNewlines(s: string): (r: string)
    ensures |r| <= |s|
    ensures '\r' !in r && '\n' !in r
  {
    if s == [] then []
    else if s[0] == '\r' || s[0] == '\n' then StripNewlines(s[1..])
    else [s[0]] + StripNewlines(s[1..])
  }

  /** Removing line breaks works piecewise. */
  lemma {:induction false} StripNewlinesAppend(a: string, b: string)
    ensures StripNewlines(a + b) == StripNewlines(a) + StripNewlines(b)
  {
    if a != [] {
      assert (a + b)[0] == a[0] && (a + b)[1..] == a[1..] + b;
      StripNewlinesAppend(a[1..], b);
    } else {
      assert a + b == b;
    }
  }

  /** Text without line breaks is left alone. */
  lemma {:induction false} StripNewlinesNone(s: string)
    requires '\r' !in s && '\n' !in s
    ensures StripNewlines(s) == s
  {
    if s != [] {
      assert s[0] in s;
      assert forall c :: c in s[1..] ==> c in s;
      StripNewlinesNone(s[1..]);
    }
  }

  /** The three bytes of a full quantum. */
  function Three(a: char, b: char, c: char, d: char): (r: seq<byte>)
    requires IsAlphabet(a) && IsAlphabet(b) && IsAlphabet(c) && IsAlphabet(d)
    ensures |r| == 3
  {
    var va, vb, vc, vd := DecodeChar(a), DecodeChar(b), DecodeChar(c), DecodeChar(d);
    [va * 4 + vb / 16, (vb % 16) * 16 + vc / 4, (vc % 4) * 64 + vd]
  }

  /** The one byte of an "xx==" quantum; the low four bits of the second character are dropped. */
  function One(a: char, b: char): (r: seq<byte>)
    requires IsAlphabet(a) && IsAlphabet(b)
    ensures |r| == 1
  {
    [DecodeChar(a) * 4 + DecodeChar(b) / 16]
  }

  /** The two bytes of an "xxx=" quantum; the low two bits of the third character are dropped. */
  function Two(a: char, b: char, c: char): (r: seq<byte>)
    requires IsAlphabet(a) && IsAlphabet(b) && IsAlphabet(c)
    ensures |r| == 2
  {
    var va, vb, vc := DecodeChar(a), DecodeChar(b), DecodeChar(c);
    [va * 4 + vb / 16, (vb % 16) * 16 + vc / 4]
  }

  /** Decoding of text already free of line breaks, one quantum at a time. */
  function DecodeQuanta(s: string): (r: Option<seq<byte>>)
    ensures r.Some? ==> |s| % 4 == 0
    decreases |s|
  {
    if s == [] then Some([])
    else if |s| < 4 then None
    else if IsAlphabet(s[0]) && IsAlphabet(s[1]) && IsAlphabet(s[2]) && IsAlphabet(s[3]) then
      match DecodeQuanta(s[4..])
      case None => None
      case Some(rest) => Some(Three(s[0], s[1], s[2], s[3]) + rest)
    else if |s| == 4 && IsAlphabet(s[0]) && IsAlphabet(s[1]) && s[2] == '=' && s[3] == '=' then
      Some(One(s[0], s[1]))
    else if |s| == 4 && IsAlphabet(s[0]) && IsAlphabet(s[1]) && IsAlphabet(s[2]) && s[3] == '=' then
      Some(Two(s[0], s[1], s[2]))
    else None
  }

  /** `base64.StdEncoding.DecodeString`: None stands for a decoding error. */
  function DecodeString(s: string): (r: Option<seq<byte>>)
    ensures r.Some? ==> |StripNewlines(s)| % 4 == 0
  {
    DecodeQuanta(StripNewlines(s))
  }

  /** The four characters for three bytes. */
  function EncodeQuantum(x: byte, y: byte, z: byte): (q: string)
    ensures |q| == 4 && IsAlphabet(q[0]) && IsAlphabet(q[1]) && IsAlphabet(q[2]) && IsAlphabet(q[3])
  {
    [EncodeChar(x / 4), EncodeChar((x % 4) * 16 + y / 16), EncodeChar((y % 16) * 4 + z / 64), EncodeChar(z % 64)]
  }

  /** The standard encoding with padding. */
  function Encode(b: seq<byte>): (s: string)
    ensures '\r' !in s && '\n' !in s
    decreases |b|
  {
    if |b| == 0 then ""
    else if |b| == 1 then
      [EncodeChar(b[0] / 4), EncodeChar((b[0] % 4) * 16), '=', '=']
    else if |b| == 2 then
      [EncodeChar(b[0] / 4), EncodeChar((b[0] % 4) * 16 + b[1] / 16), EncodeChar((b[1] % 16) * 4), '=']
    else
      EncodeQuantum(b[0], b[1], b[2]) + Encode(b[3..])
  }

  /** A byte split into six high bits and two low bits comes back whole. */
  lemma SplitByte(x: byte, y: byte, z: byte)
    ensures (x / 4) * 4 + ((x % 4) * 16 + y / 16) / 16 == x
    ensures (((x % 4) * 16 + y / 16) % 16) * 16 + ((y % 16) * 4 + z / 64) / 4 == y
    ensures (((y % 16) * 4 + z / 64) % 4) * 64 + z % 64 == z
  {
  }

  lemma ThreeOfValues(c0: char, c1: char, c2: char, c3: char, v0: int, v1: int, v2: int, v3: int)
    requires IsAlphabet(c0) && IsAlphabet(c1) && IsAlphabet(c2) && IsAlphabet(c3)
    requires DecodeChar(c0) == v0 && DecodeChar(c1) == v1 && DecodeChar(c2) == v2 && DecodeChar(c3) == v3
    ensures Three(c0, c1, c2, c3) == [v0 * 4 + v1 / 16, (v1 % 16) * 16 + v2 / 4, (v2 % 4) * 64 + v3]
  {
  }

  lemma OneOfValues(c0: char, c1: char, v0: int, v1: int)
    requires IsAlphabet(c0) && IsAlphabet(c1)
    requires DecodeChar(c0) == v0 && DecodeChar(c1) == v1
    ensures One(c0, c1) == [v0 * 4 + v1 / 16]
  {
  }

  lemma TwoOfValues(c0: char, c1: char, c2: char, v0: int, v1: int, v2: int)
    requires IsAlphabet(c0) && IsAlphabet(c1) && IsAlphabet(c2)
    requires DecodeChar(c0) == v0 && DecodeChar(c1) == v1 && DecodeChar(c2) == v2
    ensures Two(c0, c1, c2) == [v0 * 4 + v1 / 16, (v1 % 16) * 16 + v2 / 4]
  {
  }

  /** A full quantum decodes to the three bytes it was encoded from. */
  lemma ThreeRoundTrip(x: byte, y: byte, z: byte)
    ensures var q := EncodeQuantum(x, y, z); Three(q[0], q[1], q[2], q[3]) == [x, y, z]
  {
    var v0, v1, v2, v3 := x / 4, (x % 4) * 16 + y / 16, (y % 16) * 4 + z / 64, z % 64;
    DecodeEncodeChar(v0);
    DecodeEncodeChar(v1);
    DecodeEncodeChar(v2);
    DecodeEncodeChar(v3);
    ThreeOfValues(EncodeChar(v0), EncodeChar(v1), EncodeChar(v2), EncodeChar(v3), v0, v1, v2, v3);
    SplitByte(x, y, z);
  }

  /** A full leading quantum decodes to its three bytes, ahead of what the rest decodes to. */
  lemma DecodeFullQuantum(q: string, rest: string, head: seq<byte>, tail: seq<byte>)
    requires |q| == 4 && IsAlphabet(q[0]) && IsAlphabet(q[1]) && IsAlphabet(q[2]) && IsAlphabet(q[3])
    requires Three(q[0], q[1], q[2], q[3]) == head
    requires DecodeQuanta(rest) == Some(tail)
    ensures DecodeQuanta(q + rest) == Some(head + tail)
  {
    var s := q + rest;
    assert s[0] == q[0] && s[1] == q[1] && s[2] == q[2] && s[3] == q[3];
    assert s[4..] == rest;
  }

  lemma SplitThree(b: seq<byte>)
    requires |b| >= 3
    ensures b == [b[0], b[1], b[2]] + b[3..]
  {
  }

  lemma DecodeLongerEncode(b: seq<byte>)
    requires |b| >= 3
    requires DecodeQuanta(Encode(b[3..])) == Some(b[3..])
    ensures DecodeQuanta(Encode(b)) == Some(b)
  {
    var head, tail := [b[0], b[1], b[2]], b[3..];
    SplitThree(b);
    var q, rest := EncodeQuantum(b[0], b[1], b[2]), Encode(tail);
    assert Encode(b) == q + rest;
    ThreeRoundTrip(b[0], b[1], b[2]);
    DecodeFullQuantum(q, rest, head, tail);
  }

  lemma DecodeOneByte(b: seq<byte>)
    requires |b| == 1
    ensures DecodeQuanta(Encode(b)) == Some(b)
  {
    var x := b[0];
    var v0, v1 := x / 4, (x % 4) * 16;
    var c0, c1 := EncodeChar(v0), EncodeChar(v1);
    assert Encode(b) == [c0, c1, '=', '='];
    DecodeEncodeChar(v0);
    DecodeEncodeChar(v1);
    OneOfValues(c0, c1, v0, v1);
    SplitByte(x, 0, 0);
    assert b == [x];
  }

  lemma DecodeTwoBytes(b: seq<byte>)
    requires |b| == 2
    ensures DecodeQuanta(Encode(b)) == Some(b)
  {
    var x, y := b[0], b[1];
    var v0, v1, v2 := x / 4, (x % 4) * 16 + y / 16, (y % 16) * 4;
    var c0, c1, c2 := EncodeChar(v0), EncodeChar(v1), EncodeChar(v2);
    assert Encode(b) == [c0, c1, c2, '='];
    DecodeEncodeChar(v0);
    DecodeEncodeChar(v1);
    DecodeEncodeChar(v2);
    TwoOfValues(c0, c1, c2, v0, v1, v2);
    SplitByte(x, y, 0);
    assert b == [x, y];
  }

  /** Decoding what was encoded gives back the bytes. */
  lemma {:induction false} DecodeQuantaEncode(b: seq<byte>)
    ensures DecodeQuanta(Encode(b)) == Some(b)
    decreases |b|
  {
    if |b| == 1 {
      DecodeOneByte(b);
    } else if |b| == 2 {
      DecodeTwoBytes(b);
    } else if |b| >= 3 {
      DecodeQuantaEncode(b[3..]);
      DecodeLongerEncode(b);
    }
  }

  /** The round trip: `DecodeString` accepts every encoding and returns the encoded bytes. */
  lemma DecodeStringEncode(b: seq<byte>)
    ensures DecodeString(Encode(b)) == Some(b)
  {
    StripNewlinesNone(Encode(b));
    DecodeQuantaEncode(b);
  }

  /** Line breaks anywhere in the payload make no difference. */
  lemma DecodeStringIgnoresNewline(a: string, b: string, nl: char)
    requires nl == '\r' || nl == '\n'
    ensures DecodeString(a + [nl] + b) == DecodeString(a + b)
  {
    StripNewlinesAppend(a + [nl], b);
    StripNewlinesAppend(a, [nl]);
    StripNewlinesAppend(a, b);
    assert StripNewlines([nl]) == [];
    assert StripNewlines(a) + [] == StripNewlines(a);
  }

  /** The empty payload decodes, to no bytes at all. */
  lemma DecodeStringEmpty()
    ensures DecodeString("") == Some([])
  {
  }

  /** A padded quantum must be the last one: "AA==" followed by more text fails. */
  lemma {:induction false} DecodeStringPaddingLast(rest: string)
    requires '\r' !in rest && '\n' !in rest && rest != []
    ensures DecodeString("AA==" + rest) == None
  {
    var s := "AA==" + rest;
    StripNewlinesAppend("AA==", rest);
    StripNewlinesNone(rest);
    assert StripNewlines("AA==") == "AA==";
    assert s[2] == '=' && |s| > 4;
  }
}
