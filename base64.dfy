/**
 * The base64 text accepted by the staging endpoint (the alphabet of section 4 of
 * RFC 4648, at least one symbol, at most two `=` of padding) and its decoding as
 * Node's `Buffer.from(text, "base64")` performs it: the symbols before the padding
 * are read six bits at a time, and `n` symbols yield `floor(3n/4)` bytes, so a lone
 * trailing symbol contributes nothing. The RFC 4648 encoder is the partner that the
 * decoder inverts.
 */
module Base64 {
  import opened Js

  type Sextet = x: int | 0 <= x < 64

  predicate IsAlphabetChar(c: char) {
    ('A' <= c <= 'Z') || ('a' <= c <= 'z') || ('0' <= c <= '9') || c == '+' || c == '/'
  }

  /** The value of a symbol in the base64 alphabet. */
  function ValueOf(c: char): Sextet
    requires IsAlphabetChar(c)
  {
    if 'A' <= c <= 'Z' then c as int - 'A' as int
    else if 'a' <= c <= 'z' then c as int - 'a' as int + 26
    else if '0' <= c <= '9' then c as int - '0' as int + 52
    else if c == '+' then 62
    else 63
  }

  /** The symbol for a six-bit value; `ValueOf` inverts it. */
  function CharOf(v: Sextet): (c: char)
    ensures IsAlphabetChar(c) && ValueOf(c) == v
  {
    if v < 26 then ('A' as int + v) as char
    else if v < 52 then ('a' as int + v - 26) as char
    else if v < 62 then ('0' as int + v - 52) as char
    else if v == 62 then '+'
    else '/'
  }

  /** The number of `=` characters at the end of `s`. */
  function PadLength(s: string): (p: nat)
    ensures p <= |s|
    ensures forall i :: |s| - p <= i < |s| ==> s[i] == '='
    ensures p < |s| ==> s[|s| - p - 1] != '='
  {
    if s != [] && s[|s| - 1] == '=' then 1 + PadLength(s[..|s| - 1]) else 0
  }

  /** The text before the padding. */
  function Body(s: string): string {
    s[..|s| - PadLength(s)]
  }

  /** `/^[A-Za-z0-9+/]+={0,2}$/.test(s)`. */
  predicate IsBase64Text(s: string) {
    var p := PadLength(s);
    && p <= 2
    && |s| - p >= 1
    && forall i :: 0 <= i < |s| - p ==> IsAlphabetChar(s[i])
  }

  function Sextets(body: string): (v: seq<Sextet>)
    requires forall i :: 0 <= i < |body| ==> IsAlphabetChar(body[i])
    ensures |v| == |body|
  {
    seq(|body|, i requires 0 <= i < |body| => ValueOf(body[i]))
  }

  function Chars(v: seq<Sextet>): (s: string)
    ensures |s| == |v|
    ensures forall i :: 0 <= i < |s| ==> IsAlphabetChar(s[i])
  {
    seq(|v|, i requires 0 <= i < |v| => CharOf(v[i]))
  }

  /** Six-bit groups to bytes: four symbols give three bytes, a tail of two or three gives one or two. */
  function DecodeSextets(v: seq<Sextet>): (r: seq<Byte>)
    ensures |r| == (3 * |v|) / 4
  {
    if |v| < 2 then []
    else
      var first: Byte := (v[0] as int) * 4 + (v[1] as int) / 16;
      if |v| == 2 then [first]
      else
        var second: Byte := ((v[1] as int) % 16) * 16 + (v[2] as int) / 4;
        if |v| == 3 then [first, second]
        else
          var third: Byte := ((v[2] as int) % 4) * 64 + (v[3] as int);
          [first, second, third] + DecodeSextets(v[4..])
  }

  /** `Buffer.from(s, "base64")` for text that passed the alphabet check. */
  function Decode(s: string): (r: seq<Byte>)
    requires IsBase64Text(s)
    ensures |r| == (3 * |Body(s)|) / 4
    ensures r == [] <==> |Body(s)| == 1
  {
    DecodeSextets(Sextets(Body(s)))
  }

  /** Bytes to six-bit groups, three bytes at a time (section 4 of RFC 4648). */
  function EncodeSextets(b: seq<Byte>): seq<Sextet> {
    if |b| == 0 then []
    else if |b| == 1 then [b[0] / 4, (b[0] % 4) * 16]
    else if |b| == 2 then [b[0] / 4, (b[0] % 4) * 16 + b[1] / 16, (b[1] % 16) * 4]
    else [b[0] / 4, (b[0] % 4) * 16 + b[1] / 16, (b[1] % 16) * 4 + b[2] / 64, b[2] % 64] + EncodeSextets(b[3..])
  }

  function Padding(n: nat): string {
    if n % 3 == 1 then "==" else if n % 3 == 2 then "=" else ""
  }

  /** The padded base64 encoding of `b`. */
  function Encode(b: seq<Byte>): string {
    Chars(EncodeSextets(b)) + Padding(|b|)
  }

  lemma SingleByte(b0: Byte)
    ensures (b0 / 4) * 4 + ((b0 % 4) * 16) / 16 == b0
  {
  }

  lemma TwoBytes(b0: Byte, b1: Byte)
    ensures var v1 := (b0 % 4) * 16 + b1 / 16;
      && v1 / 16 == b0 % 4
      && (v1 % 16) * 16 + ((b1 % 16) * 4) / 4 == b1
  {
  }

  lemma ThreeBytes(b1: Byte, b2: Byte)
    ensures var v2 := (b1 % 16) * 4 + b2 / 64;
      && v2 / 4 == b1 % 16
      && (v2 % 4) * 64 + b2 % 64 == b2
  {
  }

  /** Decoding the six-bit groups of `b` gives back `b`. */
  lemma {:induction false} DecodeEncodeSextets(b: seq<Byte>)
    ensures DecodeSextets(EncodeSextets(b)) == b
    decreases |b|
  {
    if |b| == 0 {
    } else if |b| == 1 {
      SingleByte(b[0]);
    } else if |b| == 2 {
      SingleByte(b[0]);
      TwoBytes(b[0], b[1]);
    } else {
      SingleByte(b[0]);
      TwoBytes(b[0], b[1]);
      ThreeBytes(b[1], b[2]);
      var head := [b[0] / 4, (b[0] % 4) * 16 + b[1] / 16, (b[1] % 16) * 4 + b[2] / 64, b[2] % 64];
      var v := head + EncodeSextets(b[3..]);
      assert EncodeSextets(b) == v;
      assert v[4..] == EncodeSextets(b[3..]);
      DecodeEncodeSextets(b[3..]);
      assert b == b[..3] + b[3..];
    }
  }

  lemma SextetsOfChars(v: seq<Sextet>)
    ensures Sextets(Chars(v)) == v
  {
  }

  /** Padding after symbols that contain no `=` is exactly what `PadLength` counts. */
  lemma {:induction false} PadLengthOfPadded(body: string, n: nat)
    requires forall i :: 0 <= i < |body| ==> IsAlphabetChar(body[i])
    ensures PadLength(body + Padding(n)) == |Padding(n)|
  {
    NoPadding(body);
    if n % 3 == 2 {
      PadLengthSnoc(body);
    } else if n % 3 == 1 {
      PadLengthSnoc(body);
      PadLengthSnoc(body + "=");
      assert body + "==" == (body + "=") + "=";
    } else {
      assert body + Padding(n) == body;
    }
  }

  /** Symbols of the alphabet carry no padding. */
  lemma NoPadding(body: string)
    requires forall i :: 0 <= i < |body| ==> IsAlphabetChar(body[i])
    ensures PadLength(body) == 0
  {
    if body != [] {
      assert IsAlphabetChar(body[|body| - 1]);
    }
  }

  /** One more `=` at the end is one more padding symbol. */
  lemma PadLengthSnoc(t: string)
    ensures PadLength(t + "=") == PadLength(t) + 1
  {
    assert (t + "=")[..|t|] == t;
  }

  lemma EncodeSextetsLength(b: seq<Byte>)
    ensures b != [] ==> |EncodeSextets(b)| >= 2
  {
  }

  /**
   * Round trip: the encoding of any non-empty byte string passes the alphabet check,
   * and decoding it gives back the same bytes.
   */
  lemma {:induction false} DecodeEncode(b: seq<Byte>)
    requires b != []
    ensures IsBase64Text(Encode(b))
    ensures Decode(Encode(b)) == b
  {
    var v := EncodeSextets(b);
    var body := Chars(v);
    var s := body + Padding(|b|);
    assert s == Encode(b);
    PadLengthOfPadded(body, |b|);
    EncodeSextetsLength(b);
    assert s[..|s| - PadLength(s)] == body;
    assert forall i :: 0 <= i < |s| - PadLength(s) ==> s[i] == body[i];
    SextetsOfChars(v);
    DecodeEncodeSextets(b);
  }

  /**
   * The payload of `data:image/jpeg;base64,Zm9v` decodes to the bytes of "foo". This is one
   * instance of `DecodeEncode`, kept as the concrete case of tests/stage.test.js:112-127.
   */
  lemma DecodeFoo()
    ensures IsBase64Text("Zm9v")
    ensures Decode("Zm9v") == [0x66, 0x6f, 0x6f]
  {
    assert PadLength("Zm9v") == 0;
    assert Body("Zm9v") == "Zm9v";
    assert Sextets("Zm9v") == [25, 38, 61, 47];
  }

  /** A single symbol decodes to no bytes at all, so the staging endpoint rejects it. */
  lemma LoneSymbolIsEmpty(c: char)
    requires IsAlphabetChar(c)
    ensures IsBase64Text([c]) && Decode([c]) == []
  {
    assert PadLength([c]) == 0;
  }
}
