/** UTF-8 as section 3 of RFC 3629 defines it, decoded strictly and from any
    prefix of the bytes: what cannot be completed any more is malformed at once,
    what still can is kept for later. */
module Utf8 {
  import opened Common

  type byte = b: int | 0 <= b < 256

  datatype Scan = Scalar(c: char, width: nat) | Incomplete | Bad

  predicate Tail(b: byte) { 0x80 <= b < 0xC0 }

  function Width(lead: byte): nat {
    if lead < 0x80 then 1
    else if 0xC2 <= lead < 0xE0 then 2
    else if 0xE0 <= lead < 0xF0 then 3
    else if 0xF0 <= lead < 0xF5 then 4
    else 0
  }

  /** The second byte rules out overlong forms, surrogates and what lies beyond
      the last code point. */
  predicate Second(lead: byte, b: byte) {
    && Tail(b)
    && (lead == 0xE0 ==> 0xA0 <= b) && (lead == 0xED ==> b < 0xA0)
    && (lead == 0xF0 ==> 0x90 <= b) && (lead == 0xF4 ==> b < 0x90)
  }

  function Scalar2(a: byte, b: byte): char
    requires Width(a) == 2 && Second(a, b)
  {
    ((a - 0xC0) * 64 + (b - 0x80)) as char
  }

  function Scalar3(a: byte, b: byte, c: byte): char
    requires Width(a) == 3 && Second(a, b) && Tail(c)
  {
    ((a - 0xE0) * 4096 + (b - 0x80) * 64 + (c - 0x80)) as char
  }

  function Scalar4(a: byte, b: byte, c: byte, d: byte): char
    requires Width(a) == 4 && Second(a, b) && Tail(c) && Tail(d)
  {
    ((a - 0xF0) * 262144 + (b - 0x80) * 4096 + (c - 0x80) * 64 + (d - 0x80)) as char
  }

  /** The first character of a non-empty run of bytes. */
  function Next(s: seq<byte>): (r: Scan)
    requires s != []
    ensures r.Scalar? ==> 1 <= r.width <= |s|
  {
    var w := Width(s[0]);
    if w == 0 then Bad
    else if w == 1 then Scalar(s[0] as char, 1)
    else if |s| == 1 then Incomplete
    else if !Second(s[0], s[1]) then Bad
    else if w == 2 then Scalar(Scalar2(s[0], s[1]), 2)
    else if |s| == 2 then Incomplete
    else if !Tail(s[2]) then Bad
    else if w == 3 then Scalar(Scalar3(s[0], s[1], s[2]), 3)
    else if |s| == 3 then Incomplete
    else if !Tail(s[3]) then Bad
    else Scalar(Scalar4(s[0], s[1], s[2], s[3]), 4)
  }

  /** The characters so far and the bytes of one still incomplete. */
  datatype Decoding = Malformed | Decoded(text: string, rest: seq<byte>) {
    function Prepend(before: string): Decoding {
      if Malformed? then Malformed else Decoded(before + text, rest)
    }
  }

  function Decode(s: seq<byte>): (r: Decoding)
    ensures r.Decoded? ==> |r.rest| <= |s| && r.rest == s[|s| - |r.rest|..]
  {
    if s == [] then Decoded("", [])
    else
      match Next(s)
      case Bad => Malformed
      case Incomplete => Decoded("", s)
      case Scalar(c, width) => Decode(s[width..]).Prepend([c])
  }

  /** A whole buffer: nothing may be left over at the end. */
  function DecodeAll(s: seq<byte>): Option<string> {
    var r := Decode(s);
    if r.Decoded? && r.rest == [] then Some(r.text) else None
  }

  /** Decoding in two pieces, with what was left over put before the second,
      is decoding the whole. */
  lemma {:induction false} DecodeContinues(a: seq<byte>, b: seq<byte>)
    ensures Decode(a + b) == if Decode(a).Malformed? then Malformed
                             else Decode(Decode(a).rest + b).Prepend(Decode(a).text)
    decreases |a|
  {
    if a == [] {
      assert a + b == b && [] + b == b;
    } else {
      var n := Next(a);
      if n.Scalar? {
        assert Next(a + b) == n;
        assert (a + b)[n.width..] == a[n.width..] + b;
        DecodeContinues(a[n.width..], b);
        if Decode(a[n.width..]).Decoded? {
          assert forall tail: string :: [n.c] + (Decode(a[n.width..]).text + tail) == ([n.c] + Decode(a[n.width..]).text) + tail;
        }
      } else if n.Bad? {
        assert Next(a + b).Bad?;
      } else {
        assert Decode(a + b).Decoded? ==> "" + Decode(a + b).text == Decode(a + b).text;
      }
    }
  }

  /** Section 3 of RFC 3629, in the other direction. */
  function EncodeChar(c: char): seq<byte> {
    var n := c as int;
    if n < 0x80 then [n]
    else if n < 0x800 then [0xC0 + n / 64, 0x80 + n % 64]
    else if n < 0x10000 then [0xE0 + n / 4096, 0x80 + n / 64 % 64, 0x80 + n % 64]
    else [0xF0 + n / 262144, 0x80 + n / 4096 % 64, 0x80 + n / 64 % 64, 0x80 + n % 64]
  }

  function EncodeWith(encode: char -> seq<byte>, text: string): seq<byte> {
    if text == "" then [] else encode(text[0]) + EncodeWith(encode, text[1..])
  }

  function Encode(text: string): seq<byte> { EncodeWith(EncodeChar, text) }

  /** A short character's bytes, and where the next one begins. */
  lemma NextReadsShort(c: char, rest: seq<byte>)
    requires c as int < 0x800
    ensures Next(EncodeChar(c) + rest) == Scalar(c, |EncodeChar(c)|)
  {
  }

  lemma NextReadsThree(c: char, rest: seq<byte>)
    requires 0x800 <= c as int < 0x10000
    ensures Next(EncodeChar(c) + rest) == Scalar(c, |EncodeChar(c)|)
  {
    var n := c as int;
    assert n == n / 4096 * 4096 + n / 64 % 64 * 64 + n % 64;
  }

  lemma FourDigits(n: nat)
    requires 0x10000 <= n < 0x110000
    ensures n == n / 262144 * 262144 + n / 4096 % 64 * 4096 + n / 64 % 64 * 64 + n % 64
    ensures n / 262144 <= 4
    ensures (n / 262144 == 0 ==> 16 <= n / 4096 % 64) && (n / 262144 == 4 ==> n / 4096 % 64 < 16)
  {
  }

  lemma FourBytes(c: char)
    requires 0x10000 <= c as int
    ensures var b := EncodeChar(c);
            && |b| == 4 && Width(b[0]) == 4 && Second(b[0], b[1]) && Tail(b[2]) && Tail(b[3])
            && Scalar4(b[0], b[1], b[2], b[3]) == c
  {
    FourDigits(c as int);
    var b := EncodeChar(c);
    assert |b| == 4 && b[0] as int == 0xF0 + c as int / 262144 && b[1] as int == 0x80 + c as int / 4096 % 64;
  }

  lemma NextReadsFour(c: char, rest: seq<byte>)
    requires 0x10000 <= c as int
    ensures Next(EncodeChar(c) + rest) == Scalar(c, |EncodeChar(c)|)
  {
    FourBytes(c);
    hide EncodeChar, Scalar4, Second, Tail, Width;
    assert forall i | 0 <= i < 4 :: (EncodeChar(c) + rest)[i] == EncodeChar(c)[i];
  }

  lemma NextReadsEncodedChar(c: char, rest: seq<byte>)
    ensures Next(EncodeChar(c) + rest) == Scalar(c, |EncodeChar(c)|)
  {
    hide Next, EncodeChar;
    if (c as int) < 0x800 {
      NextReadsShort(c, rest);
    } else if (c as int) < 0x10000 {
      NextReadsThree(c, rest);
    } else {
      NextReadsFour(c, rest);
    }
  }

  lemma DecodeOneMore(c: char, encoded: seq<byte>, rest: seq<byte>)
    requires encoded != [] && Next(encoded + rest) == Scalar(c, |encoded|)
    ensures Decode(encoded + rest) == Decode(rest).Prepend([c])
  {
    assert (encoded + rest)[|encoded|..] == rest;
  }

  ghost predicate Reads(encode: char -> seq<byte>, c: char, rest: seq<byte>) {
    encode(c) != [] && Next(encode(c) + rest) == Scalar(c, |encode(c)|)
  }

  lemma {:induction false} RoundTripWith(encode: char -> seq<byte>, text: string)
    requires forall c: char, rest: seq<byte> :: Reads(encode, c, rest)
    ensures DecodeAll(EncodeWith(encode, text)) == Some(text)
  {
    if text != "" {
      RoundTripWith(encode, text[1..]);
      assert Reads(encode, text[0], EncodeWith(encode, text[1..]));
      DecodeOneMore(text[0], encode(text[0]), EncodeWith(encode, text[1..]));
      assert [text[0]] + text[1..] == text;
    }
  }

  /** The strict decoder undoes the encoder on every text. */
  lemma DecodesWhatWasEncoded(text: string)
    ensures DecodeAll(Encode(text)) == Some(text)
  {
    forall c: char, rest: seq<byte> ensures Reads(EncodeChar, c, rest) {
      NextReadsEncodedChar(c, rest);
    }
    RoundTripWith(EncodeChar, text);
  }

  lemma SixBitDigits(high: nat, x: nat, low: nat)
    requires x < 64 && low < 64
    ensures var n := high * 4096 + x * 64 + low; n / 4096 == high && n / 64 == high * 64 + x && n / 64 % 64 == x && n % 64 == low
  {
  }

  lemma Undo2(s: seq<byte>)
    requires |s| >= 2 && Width(s[0]) == 2 && Second(s[0], s[1])
    ensures EncodeChar(Scalar2(s[0], s[1])) == s[..2]
  {
    SixBitDigits(0, s[0] as int - 0xC0, s[1] as int - 0x80);
    assert s[..2] == [s[0], s[1]];
  }

  lemma Undo3(s: seq<byte>)
    requires |s| >= 3 && Width(s[0]) == 3 && Second(s[0], s[1]) && Tail(s[2])
    ensures EncodeChar(Scalar3(s[0], s[1], s[2])) == s[..3]
  {
    SixBitDigits(s[0] as int - 0xE0, s[1] as int - 0x80, s[2] as int - 0x80);
    assert s[..3] == [s[0], s[1], s[2]];
  }

  lemma Undo4(s: seq<byte>)
    requires |s| >= 4 && Width(s[0]) == 4 && Second(s[0], s[1]) && Tail(s[2]) && Tail(s[3])
    ensures EncodeChar(Scalar4(s[0], s[1], s[2], s[3])) == s[..4]
  {
    var high := (s[0] as int - 0xF0) * 64 + (s[1] as int - 0x80);
    SixBitDigits(high, s[2] as int - 0x80, s[3] as int - 0x80);
    assert s[..4] == [s[0], s[1], s[2], s[3]];
  }

  /** A character is read only from the bytes that encode it. */
  lemma NextUndoesEncoding(s: seq<byte>)
    requires s != [] && Next(s).Scalar?
    ensures EncodeChar(Next(s).c) == s[..Next(s).width]
  {
    var width := Width(s[0]);
    if width == 1 {
      assert s[..1] == [s[0]];
    } else {
      hide EncodeChar;
      if width == 2 { Undo2(s); } else if width == 3 { Undo3(s); } else { Undo4(s); }
    }
  }

  lemma DecodeFirst(s: seq<byte>)
    requires s != [] && Next(s).Scalar?
    ensures Decode(s) == Decode(s[Next(s).width..]).Prepend([Next(s).c])
  {
  }

  lemma EncodeFirst(c: char, text: string)
    ensures Encode([c] + text) == EncodeChar(c) + Encode(text)
  {
    assert ([c] + text)[1..] == text;
  }

  lemma Regroup(a: seq<byte>, b: seq<byte>, c: seq<byte>)
    ensures (a + b) + c == a + (b + c)
  {
  }

  lemma CutAndJoin(s: seq<byte>, n: nat)
    requires n <= |s|
    ensures s[..n] + s[n..] == s
  {
  }

  /** And the encoder undoes the decoder: no bytes decode but those that encode
      what they decode to. */
  lemma {:induction false} EncodesWhatWasDecoded(s: seq<byte>)
    requires Decode(s).Decoded?
    ensures Encode(Decode(s).text) + Decode(s).rest == s
    decreases |s|
  {
    if s != [] && Next(s).Scalar? {
      var c, width := Next(s).c, Next(s).width;
      DecodeFirst(s);
      NextUndoesEncoding(s);
      var rest := Decode(s[width..]);
      hide *;
      EncodesWhatWasDecoded(s[width..]);
      EncodeFirst(c, rest.text);
      Regroup(EncodeChar(c), Encode(rest.text), rest.rest);
      CutAndJoin(s, width);
    } else {
      assert Decode(s).text == "" && Decode(s).rest == s;
      hide *;
      NothingEncodes();
    }
  }

  lemma NothingEncodes()
    ensures forall s: seq<byte> :: Encode("") + s == s
  {
  }
}
