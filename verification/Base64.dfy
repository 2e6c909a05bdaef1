/**
 The byte fields of the pairing messages travel as base64 text (section 4 of RFC 4648) inside JSON;
 decodeWireBytes (patches/link-core-tailnet.patch) takes them back.
 */
module Base64 {
  import opened Common
  import opened Streams

  type Digit = d: int | 0 <= d < 64

  function CharOf(d: Digit): (c: char)
    ensures c != '=' && c != '\r' && c != '\n'
    ensures DigitOf(c) == Some(d)
  {
    if d < 26 then ('A' as int + d) as char
    else if d < 52 then ('a' as int + d - 26) as char
    else if d < 62 then ('0' as int + d - 52) as char
    else if d == 62 then '+'
    else '/'
  }

  function DigitOf(c: char): (r: Option<Digit>)
    ensures c == '=' || c == '\r' || c == '\n' ==> r.None?
  {
    if 'A' <= c <= 'Z' then Some(c as int - 'A' as int)
    else if 'a' <= c <= 'z' then Some(c as int - 'a' as int + 26)
    else if '0' <= c <= '9' then Some(c as int - '0' as int + 52)
    else if c == '+' then Some(62)
    else if c == '/' then Some(63)
    else None
  }

  lemma CharOfDigit(c: char)
    requires DigitOf(c).Some?
    ensures CharOf(DigitOf(c).value) == c
  {
  }

  /** Three bytes as four digits; two or one as the digits that padding leaves. */
  function Four(a: Byte, b: Byte, c: Byte): (s: string)
    ensures |s| == 4
  {
    [CharOf(a / 4), CharOf(a % 4 * 16 + b / 16), CharOf(b % 16 * 4 + c / 64), CharOf(c % 64)]
  }

  function Encode(b: seq<Byte>): (s: string)
    ensures |s| % 4 == 0
    ensures '\r' !in s && '\n' !in s
  {
    if b == [] then ""
    else if |b| == 1 then Four(b[0], 0, 0)[..2] + "=="
    else if |b| == 2 then Four(b[0], b[1], 0)[..3] + "="
    else Four(b[0], b[1], b[2]) + Encode(b[3..])
  }

  /** Line breaks are skipped wherever they stand. */
  function WithoutBreaks(s: string): string {
    if s == "" then ""
    else if s[0] == '\r' || s[0] == '\n' then WithoutBreaks(s[1..])
    else [s[0]] + WithoutBreaks(s[1..])
  }

  function Three(w: Digit, x: Digit, y: Digit, z: Digit): (b: seq<Byte>)
    ensures |b| == 3
  {
    [w * 4 + x / 16, x % 16 * 16 + y / 4, y % 4 * 64 + z]
  }

  lemma Split(h: nat, l: nat)
    ensures l < 16 ==> (h * 16 + l) / 16 == h && (h * 16 + l) % 16 == l
    ensures l < 4 ==> (h * 4 + l) / 4 == h && (h * 4 + l) % 4 == l
    ensures l < 64 ==> (h * 64 + l) / 64 == h && (h * 64 + l) % 64 == l
  {
  }

  lemma GroupRoundTrip(a: Byte, b: Byte, c: Byte)
    ensures var s := Four(a, b, c);
            && (forall i :: 0 <= i < 4 ==> DigitOf(s[i]).Some?)
            && Three(DigitOf(s[0]).value, DigitOf(s[1]).value, DigitOf(s[2]).value, DigitOf(s[3]).value) == [a, b, c]
  {
    hide CharOf;
    hide DigitOf;
    Split(a % 4, b / 16);
    Split(b % 16, c / 64);
  }

  lemma DigitsRoundTrip(w: Digit, x: Digit, y: Digit, z: Digit)
    ensures var b := Three(w, x, y, z);
            Four(b[0], b[1], b[2]) == [CharOf(w), CharOf(x), CharOf(y), CharOf(z)]
  {
    hide CharOf;
    Split(w, x / 16);
    Split(x % 16, y / 4);
    Split(y % 4, z);
  }

  /** Padding ends the text; the bits that padding leaves unused are not looked at. */
  function DecodeQuads(s: string): Option<seq<Byte>> {
    if s == "" then Some([])
    else if |s| < 4 || DigitOf(s[0]).None? || DigitOf(s[1]).None? then None
    else
      var w, x := DigitOf(s[0]).value, DigitOf(s[1]).value;
      if s[2] == '=' then
        if s[3] == '=' && |s| == 4 then Some(Three(w, x, 0, 0)[..1]) else None
      else if DigitOf(s[2]).None? then None
      else
        var y := DigitOf(s[2]).value;
        if s[3] == '=' then
          if |s| == 4 then Some(Three(w, x, y, 0)[..2]) else None
        else if DigitOf(s[3]).None? then None
        else
          match DecodeQuads(s[4..])
          case None => None
          case Some(rest) => Some(Three(w, x, y, DigitOf(s[3]).value) + rest)
  }

  function Decode(s: string): Option<seq<Byte>> {
    DecodeQuads(WithoutBreaks(s))
  }

  /** A field of a decoded message: raw bytes, text, or something else. */
  datatype WireValue = Raw(bytes: seq<Byte>) | Text(text: string) | OtherValue

  /** decodeWireBytes. */
  function DecodeWireBytes(v: WireValue): Option<seq<Byte>> {
    match v
    case Raw(bytes) => Some(bytes)
    case Text(text) => Decode(text)
    case OtherValue => None
  }

  lemma {:induction false} NothingToSkip(s: string)
    requires '\r' !in s && '\n' !in s
    ensures WithoutBreaks(s) == s
  {
    if s != "" { NothingToSkip(s[1..]); }
  }

  lemma QuadDecodes(q: string, t: string)
    requires |q| == 4 && forall i :: 0 <= i < 4 ==> DigitOf(q[i]).Some?
    ensures DecodeQuads(q + t) ==
            match DecodeQuads(t)
            case None => None
            case Some(rest) =>
              Some(Three(DigitOf(q[0]).value, DigitOf(q[1]).value, DigitOf(q[2]).value, DigitOf(q[3]).value) + rest)
  {
    assert (q + t)[4..] == t;
  }

  lemma {:induction false} QuadsRoundTrip(b: seq<Byte>)
    ensures DecodeQuads(Encode(b)) == Some(b)
  {
    hide CharOf;
    hide DigitOf;
    if |b| == 1 {
      GroupRoundTrip(b[0], 0, 0);
      var s := Encode(b);
      assert s[0] == Four(b[0], 0, 0)[0] && s[1] == Four(b[0], 0, 0)[1];
      assert s[2] == '=' && s[3] == '=' && |s| == 4;
      assert Three(DigitOf(s[0]).value, DigitOf(s[1]).value, 0, 0)[..1] == [b[0]];
      assert b == [b[0]];
    } else if |b| == 2 {
      GroupRoundTrip(b[0], b[1], 0);
      var s := Encode(b);
      assert s[0] == Four(b[0], b[1], 0)[0] && s[1] == Four(b[0], b[1], 0)[1] && s[2] == Four(b[0], b[1], 0)[2];
      assert s[3] == '=' && |s| == 4;
      assert Three(DigitOf(s[0]).value, DigitOf(s[1]).value, DigitOf(s[2]).value, 0)[..2] == [b[0], b[1]];
      assert b == [b[0], b[1]];
    } else if |b| >= 3 {
      GroupRoundTrip(b[0], b[1], b[2]);
      QuadsRoundTrip(b[3..]);
      QuadDecodes(Four(b[0], b[1], b[2]), Encode(b[3..]));
      assert b == [b[0], b[1], b[2]] + b[3..];
    }
  }

  /** Every byte field survives the text, and also comes through untouched when it was never text. */
  lemma WireRoundTrip(b: seq<Byte>)
    ensures DecodeWireBytes(Text(Encode(b))) == Some(b)
    ensures DecodeWireBytes(Raw(b)) == Some(b)
  {
    NothingToSkip(Encode(b));
    QuadsRoundTrip(b);
  }

  /** Breaking the text into lines anywhere changes nothing: each piece is read as it would be alone. */
  lemma BreaksAreSkipped(s: string, t: string)
    ensures WithoutBreaks(s + t) == WithoutBreaks(s) + WithoutBreaks(t)
    ensures WithoutBreaks("\r\n" + t) == WithoutBreaks("\n" + t) == WithoutBreaks(t)
  {
    BreaksInFront(t);
    SkippedApart(s, t);
  }

  lemma BreaksInFront(t: string)
    ensures WithoutBreaks("\r\n" + t) == WithoutBreaks("\n" + t) == WithoutBreaks(t)
  {
    assert ("\n" + t)[1..] == t && ("\r\n" + t)[1..] == "\n" + t;
  }

  lemma FirstSkipped(c: char, s: string)
    ensures WithoutBreaks([c] + s) == (if c == '\r' || c == '\n' then "" else [c]) + WithoutBreaks(s)
    ensures WithoutBreaks("") == ""
  {
    assert ([c] + s)[1..] == s;
  }

  lemma {:induction false} SkippedApart(s: string, t: string)
    ensures WithoutBreaks(s + t) == WithoutBreaks(s) + WithoutBreaks(t)
  {
    hide WithoutBreaks;
    if s == "" {
      FirstSkipped('a', "");
      assert s + t == t;
    } else {
      SkippedApart(s[1..], t);
      FirstSkipped(s[0], s[1..]);
      FirstSkipped(s[0], s[1..] + t);
      assert s == [s[0]] + s[1..] && s + t == [s[0]] + (s[1..] + t);
    }
  }

  /** The bits that the padding leaves unused are zero. */
  predicate Canonical(s: string) {
    |s| >= 4 && s[|s| - 1] == '=' ==>
      if s[|s| - 2] == '='
      then DigitOf(s[|s| - 3]).Some? && DigitOf(s[|s| - 3]).value % 16 == 0
      else DigitOf(s[|s| - 2]).Some? && DigitOf(s[|s| - 2]).value % 4 == 0
  }

  lemma TailCanonical(s: string)
    requires DecodeQuads(s).Some? && s != "" && s[3] != '='
    ensures Canonical(s) <==> Canonical(s[4..])
  {
    hide DigitOf;
    if s[4..] != "" {
      assert |s[4..]| >= 4;
      var n := |s| - 4;
      assert s[4..][n - 1] == s[|s| - 1] && s[4..][n - 2] == s[|s| - 2] && s[4..][n - 3] == s[|s| - 3];
    }
  }

  /** The last quad of a padded text. */
  lemma PaddedIsEncoded(s: string)
    requires |s| == 4 && s[3] == '=' && DecodeQuads(s).Some?
    ensures Encode(DecodeQuads(s).value) == s <==> Canonical(s)
    ensures |Encode(DecodeQuads(s).value)| == 4
  {
    hide CharOf;
    hide DigitOf;
    hide Four;
    hide Three;
    var w, x := DigitOf(s[0]).value, DigitOf(s[1]).value;
    CharOfDigit(s[0]);
    CharOfDigit(s[1]);
    if s[2] == '=' {
      OneByteAgain(w, x);
    } else {
      CharOfDigit(s[2]);
      TwoBytesAgain(w, x, DigitOf(s[2]).value);
    }
  }

  lemma OneByteAgain(w: Digit, x: Digit)
    ensures var b := Three(w, x, 0, 0)[..1];
            && |b| == 1
            && Four(b[0], 0, 0)[..2] == [CharOf(w), CharOf(x / 16 * 16)]
            && (CharOf(x / 16 * 16) == CharOf(x) <==> x % 16 == 0)
  {
    hide CharOf;
    hide Four;
    DigitsRoundTrip(w, x / 16 * 16, 0, 0);
    assert Three(w, x / 16 * 16, 0, 0) == [w * 4 + x / 16, 0, 0];
    SameDigit(x / 16 * 16, x);
  }

  lemma TwoBytesAgain(w: Digit, x: Digit, y: Digit)
    ensures var b := Three(w, x, y, 0)[..2];
            && |b| == 2
            && Four(b[0], b[1], 0)[..3] == [CharOf(w), CharOf(x), CharOf(y / 4 * 4)]
            && (CharOf(y / 4 * 4) == CharOf(y) <==> y % 4 == 0)
  {
    hide CharOf;
    hide Four;
    DigitsRoundTrip(w, x, y / 4 * 4, 0);
    assert Three(w, x, y / 4 * 4, 0) == [w * 4 + x / 16, x % 16 * 16 + y / 4, 0];
    SameDigit(y / 4 * 4, y);
  }

  lemma SameDigit(d: Digit, e: Digit)
    ensures CharOf(d) == CharOf(e) <==> d == e
  {
    hide CharOf;
    assert DigitOf(CharOf(d)) == Some(d) && DigitOf(CharOf(e)) == Some(e);
  }

  /** An accepted text is the encoding of what it decodes to exactly when its unused bits are zero. */
  lemma {:induction false} DecodedIsEncoded(s: string)
    requires DecodeQuads(s).Some?
    ensures Encode(DecodeQuads(s).value) == s <==> Canonical(s)
    ensures |Encode(DecodeQuads(s).value)| == |s|
  {
    if s != "" {
      if s[3] == '=' {
        PaddedIsEncoded(s);
      } else {
        DecodedIsEncoded(s[4..]);
        TailCanonical(s);
        FullIsEncoded(s);
      }
    }
  }

  lemma FullIsEncoded(s: string)
    requires DecodeQuads(s).Some? && s != "" && s[3] != '='
    ensures Encode(DecodeQuads(s).value) == s[..4] + Encode(DecodeQuads(s[4..]).value)
  {
    var w, x, y, z := DigitOf(s[0]).value, DigitOf(s[1]).value, DigitOf(s[2]).value, DigitOf(s[3]).value;
    var rest := DecodeQuads(s[4..]).value;
    DigitsRoundTrip(w, x, y, z);
    CharOfDigit(s[0]);
    CharOfDigit(s[1]);
    CharOfDigit(s[2]);
    CharOfDigit(s[3]);
    assert s[..4] == [s[0], s[1], s[2], s[3]];
    assert (Three(w, x, y, z) + rest)[3..] == rest;
  }

  lemma {:induction false} BreaksOnlyShorten(s: string)
    ensures |WithoutBreaks(s)| <= |s|
    ensures WithoutBreaks(s) == s <==> '\r' !in s && '\n' !in s
  {
    if s != "" { BreaksOnlyShorten(s[1..]); }
  }

  /**
   A text that decodeWireBytes accepts is the encoder's own exactly when it has no line breaks and its unused
   bits are zero.
   */
  lemma AcceptedIsEncoded(s: string)
    requires DecodeWireBytes(Text(s)).Some?
    ensures Encode(DecodeWireBytes(Text(s)).value) == s <==> '\r' !in s && '\n' !in s && Canonical(s)
  {
    hide DecodeQuads;
    hide Canonical;
    BreaksOnlyShorten(s);
    DecodedIsEncoded(WithoutBreaks(s));
  }

  /** Each condition fails on its own: two texts that are accepted for the one byte 65, which is written "QQ==". */
  lemma UnusedBitsAreAccepted()
    ensures Encode([65]) == "QQ=="
    ensures DecodeWireBytes(Text("QR==")) == Some([65]) && !Canonical("QR==")
  {
    assert DigitOf('Q') == Some(16) && DigitOf('R') == Some(17);
    NothingToSkip("QR==");
    assert Three(16, 17, 0, 0)[..1] == [65];
    assert Four(65, 0, 0)[..2] == "QQ";
  }

  lemma BreaksAreAccepted()
    ensures DecodeWireBytes(Text("QQ==\n")) == Some([65]) && Canonical("QQ==\n")
    ensures Encode([65]) != "QQ==\n"
  {
    assert DigitOf('Q') == Some(16);
    BreaksAreSkipped("QQ==", "\n");
    NothingToSkip("QQ==");
    assert "QQ==" + "\n" == "QQ==\n";
    assert WithoutBreaks("\n") == "" by { assert "\n"[1..] == ""; }
    assert WithoutBreaks("QQ==\n") == "QQ==";
    assert Three(16, 16, 0, 0)[..1] == [65];
  }

  // ----- The alphabet and the order of the bits (section 4 of RFC 4648)

  /** A to Z, a to z, 0 to 9, plus and slash, by their ASCII numbers. */
  lemma AlphabetIsStandard(d: Digit)
    ensures CharOf(d) as int ==
            if d <= 25 then 65 + d
            else if d <= 51 then 97 + (d - 26)
            else if d <= 61 then 48 + (d - 52)
            else if d == 62 then 43
            else 47
    ensures DigitOf(CharOf(d)) == Some(d)
  {
  }

  /** Four digits are the 24 bits of three bytes, the first byte's highest bit first. */
  lemma BitsInOrder(a: Byte, b: Byte, c: Byte, w: Digit, x: Digit, y: Digit, z: Digit)
    requires ((w * 64 + x) * 64 + y) * 64 + z == (a * 256 + b) * 256 + c
    ensures Four(a, b, c) == [CharOf(w), CharOf(x), CharOf(y), CharOf(z)]
    ensures Three(w, x, y, z) == [a, b, c]
  {
    hide CharOf;
    FirstDigit(a, b, c, w, x, y, z);
  }

  lemma FirstDigit(a: Byte, b: Byte, c: Byte, w: Digit, x: Digit, y: Digit, z: Digit)
    requires ((w * 64 + x) * 64 + y) * 64 + z == (a * 256 + b) * 256 + c
    ensures w == a / 4 && x == a % 4 * 16 + b / 16 && y == b % 16 * 4 + c / 64 && z == c % 64
    ensures a == w * 4 + x / 16 && b == x % 16 * 16 + y / 4 && c == y % 4 * 64 + z
  {
  }

  /** One or two bytes left over are padded with zero bits to two or three digits, and with = to four characters. */
  lemma PaddingOfTheRest(a: Byte, b: Byte, w: Digit, x: Digit, y: Digit)
    ensures w * 64 + x == a * 16 ==> Encode([a]) == [CharOf(w), CharOf(x), '=', '=']
    ensures (w * 64 + x) * 64 + y == (a * 256 + b) * 4 ==> Encode([a, b]) == [CharOf(w), CharOf(x), CharOf(y), '=']
  {
    hide CharOf;
    hide Four;
    if w * 64 + x == a * 16 { BitsInOrder(a, 0, 0, w, x, 0, 0); }
    if (w * 64 + x) * 64 + y == (a * 256 + b) * 4 { BitsInOrder(a, b, 0, w, x, y, 0); }
  }

  /** Reading them back, the bits that do not fill a byte are dropped, whatever they are. */
  lemma PaddingReadBack(q: string, w: Digit, x: Digit, y: Digit)
    requires |q| == 4 && q[0] == CharOf(w) && q[1] == CharOf(x) && q[3] == '='
    ensures q[2] == '=' ==> DecodeQuads(q) == Some([(w * 64 + x) / 16])
    ensures q[2] == CharOf(y) ==> DecodeQuads(q) == Some([(w * 64 + x) / 16, ((w * 64 + x) * 64 + y) / 4 % 256])
  {
    hide CharOf;
    hide DigitOf;
    hide Three;
    PaddedBits(w, x, y);
    TwoOfThree(w, x, y);
    assert DigitOf(CharOf(w)) == Some(w) && DigitOf(CharOf(x)) == Some(x) && DigitOf(CharOf(y)) == Some(y);
  }

  lemma TwoOfThree(w: Digit, x: Digit, y: Digit)
    ensures Three(w, x, 0, 0)[..1] == [w * 4 + x / 16]
    ensures Three(w, x, y, 0)[..2] == [w * 4 + x / 16, x % 16 * 16 + y / 4]
  {
  }

  lemma PaddedBits(w: Digit, x: Digit, y: Digit)
    ensures (w * 64 + x) / 16 == w * 4 + x / 16
    ensures ((w * 64 + x) * 64 + y) / 4 % 256 == x % 16 * 16 + y / 4
  {
    var high, low := w * 4 + x / 16, x % 16 * 16 + y / 4;
    assert x == x / 16 * 16 + x % 16;
    assert ((w * 64 + x) * 64 + y) / 4 == high * 256 + low;
    LowByte(high, low);
  }

  lemma LowByte(high: nat, low: nat)
    requires low < 256
    ensures (high * 256 + low) % 256 == low
  {
  }

  /** And a text is written three bytes at a time. */
  lemma WrittenInGroups(a: Byte, b: Byte, c: Byte, rest: seq<Byte>)
    ensures Encode([a, b, c] + rest) == Four(a, b, c) + Encode(rest)
  {
    assert ([a, b, c] + rest)[3..] == rest;
  }
}
