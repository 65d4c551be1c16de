/** Base 64 as in section 4 of RFC 4648. */
module Base64 {
  import opened Basics

  type Byte = x: nat | x < 256

  type Sextet = x: nat | x < 64

  function Letter(v: Sextet): char {
    if v < 26 then 'A' + v as char
    else if v < 52 then 'a' + (v - 26) as char
    else if v < 62 then '0' + (v - 52) as char
    else if v == 62 then '+' else '/'
  }

  function Value(c: char): Option<Sextet> {
    if 'A' <= c <= 'Z' then Some((c - 'A') as nat)
    else if 'a' <= c <= 'z' then Some((c - 'a') as nat + 26)
    else if '0' <= c <= '9' then Some((c - '0') as nat + 52)
    else if c == '+' then Some(62) else if c == '/' then Some(63) else None
  }

  lemma ValueOfLetter(v: Sextet)
    ensures Value(Letter(v)) == Some(v) && Letter(v) != '='
  {
  }

  /** Three bytes become four letters; a shorter last group is padded. */
  function Encode(bytes: seq<Byte>): string {
    if bytes == [] then ""
    else if |bytes| == 1 then [Letter(bytes[0] / 4), Letter(bytes[0] % 4 * 16), '=', '=']
    else if |bytes| == 2 then
      [Letter(bytes[0] / 4), Letter(bytes[0] % 4 * 16 + bytes[1] / 16), Letter(bytes[1] % 16 * 4), '=']
    else
      [Letter(bytes[0] / 4), Letter(bytes[0] % 4 * 16 + bytes[1] / 16), Letter(bytes[1] % 16 * 4 + bytes[2] / 64),
       Letter(bytes[2] % 64)] + Encode(bytes[3..])
  }

  /** The bytes of one group of four letters. */
  function Group(a: char, b: char, c: char, d: char): Option<seq<Byte>> {
    if Value(a) == None || Value(b) == None then None
    else
      var x, y := Value(a).value, Value(b).value;
      var first: Byte := x * 4 + y / 16;
      if c == '=' then if d == '=' then Some([first]) else None
      else if Value(c) == None then None
      else
        var z := Value(c).value;
        var second: Byte := y % 16 * 16 + z / 4;
        if d == '=' then Some([first, second])
        else if Value(d) == None then None
        else
          var third: Byte := z % 4 * 64 + Value(d).value;
          Some([first, second, third])
  }

  function Decode(s: string): Option<seq<Byte>> {
    if s == "" then Some([])
    else if |s| < 4 then None
    else
      match Group(s[0], s[1], s[2], s[3])
      case None => None
      case Some(front) =>
        match Decode(s[4..])
        case None => None
        case Some(rest) => if rest != [] && |front| < 3 then None else Some(front + rest)
  }

  /** A sextet made of two parts comes apart again. */
  lemma TwoFour(a: Byte, b: Byte)
    ensures var y := a % 4 * 16 + b / 16; y / 16 == a % 4 && y % 16 == b / 16
  {
  }

  lemma FourTwo(b: Byte, c: Byte)
    ensures var z := b % 16 * 4 + c / 64; z / 4 == b % 16 && z % 4 == c / 64
  {
  }

  lemma Join1(a: Byte)
    ensures Group(Letter(a / 4), Letter(a % 4 * 16), '=', '=') == Some([a])
  {
    ValueOfLetter(a / 4);
    ValueOfLetter(a % 4 * 16);
    hide Letter, Value;
  }

  lemma Join2(a: Byte, b: Byte)
    ensures Group(Letter(a / 4), Letter(a % 4 * 16 + b / 16), Letter(b % 16 * 4), '=') == Some([a, b])
  {
    ValueOfLetter(a / 4);
    ValueOfLetter(a % 4 * 16 + b / 16);
    ValueOfLetter(b % 16 * 4);
    TwoFour(a, b);
    hide Letter, Value;
  }

  lemma Join3(a: Byte, b: Byte, c: Byte)
    ensures Group(Letter(a / 4), Letter(a % 4 * 16 + b / 16), Letter(b % 16 * 4 + c / 64), Letter(c % 64)) == Some([a, b, c])
  {
    ValueOfLetter(a / 4);
    ValueOfLetter(a % 4 * 16 + b / 16);
    ValueOfLetter(b % 16 * 4 + c / 64);
    ValueOfLetter(c % 64);
    TwoFour(a, b);
    FourTwo(b, c);
    assert a / 4 * 4 + a % 4 == a && b / 16 * 16 + b % 16 == b && c / 64 * 64 + c % 64 == c;
    hide Letter, Value;
  }

  lemma DecodeGroup(a: char, b: char, c: char, d: char, rest: string, front: seq<Byte>, back: seq<Byte>)
    requires Group(a, b, c, d) == Some(front) && Decode(rest) == Some(back) && (back != [] ==> |front| == 3)
    ensures Decode([a, b, c, d] + rest) == Some(front + back)
  {
    hide Group;
    var s := [a, b, c, d] + rest;
    assert s[4..] == rest;
  }

  /** Decoding undoes encoding. */
  lemma {:induction false} DecodeEncode(bytes: seq<Byte>)
    ensures Decode(Encode(bytes)) == Some(bytes)
    decreases |bytes|
  {
    hide Letter, Group, Decode;
    assert Decode("") == Some([]) by { Nothing(); }
    if |bytes| == 1 {
      Join1(bytes[0]);
      DecodeGroup(Letter(bytes[0] / 4), Letter(bytes[0] % 4 * 16), '=', '=', "", [bytes[0]], []);
      assert Encode(bytes) + "" == Encode(bytes) && bytes == [bytes[0]] + [];
    } else if |bytes| == 2 {
      Join2(bytes[0], bytes[1]);
      DecodeGroup(Letter(bytes[0] / 4), Letter(bytes[0] % 4 * 16 + bytes[1] / 16), Letter(bytes[1] % 16 * 4), '=', "",
                  [bytes[0], bytes[1]], []);
      assert Encode(bytes) + "" == Encode(bytes) && bytes == [bytes[0], bytes[1]] + [];
    } else if |bytes| > 2 {
      DecodeEncode(bytes[3..]);
      Join3(bytes[0], bytes[1], bytes[2]);
      DecodeGroup(Letter(bytes[0] / 4), Letter(bytes[0] % 4 * 16 + bytes[1] / 16),
                  Letter(bytes[1] % 16 * 4 + bytes[2] / 64), Letter(bytes[2] % 64), Encode(bytes[3..]),
                  [bytes[0], bytes[1], bytes[2]], bytes[3..]);
      assert bytes == [bytes[0], bytes[1], bytes[2]] + bytes[3..];
    }
  }

  lemma Nothing()
    ensures Decode("") == Some([])
  {
  }

  /** A character of encoded text. */
  predicate IsCode(c: char) { Value(c).Some? || c == '=' }

  lemma {:induction false} EncodedCodes(bytes: seq<Byte>)
    ensures forall i :: 0 <= i < |Encode(bytes)| ==> IsCode(Encode(bytes)[i])
    ensures Encode(bytes) == "" <==> bytes == []
    decreases |bytes|
  {
    hide Letter, Value;
    forall v: Sextet ensures IsCode(Letter(v)) { ValueOfLetter(v); }
    if |bytes| > 2 {
      EncodedCodes(bytes[3..]);
    }
  }
}
