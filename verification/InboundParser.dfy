/**
 The UTF-8 gate every inbound line passes before JSON parsing, against an independent
 definition: the encoder of section 3 of RFC 3629 over Unicode scalar values.
 */
module InboundParser {

  type byte = b: int | 0 <= b < 256

  /** A Unicode scalar value: a code point that is not a surrogate. */
  type scalar = v: int | 0 <= v < 0xD800 || 0xE000 <= v <= 0x10FFFF

  /** The UTF-8 form of one scalar value (table of section 3 of RFC 3629). */
  function Encode(v: scalar): (bytes: seq<byte>)
    ensures 1 <= |bytes| <= 4
  {
    if v < 0x80 then [v]
    else if v < 0x800 then [0xC0 + v / 64, 0x80 + v % 64]
    else if v < 0x10000 then [0xE0 + v / 4096, 0x80 + v / 64 % 64, 0x80 + v % 64]
    else [0xF0 + v / 262144, 0x80 + v / 4096 % 64, 0x80 + v / 64 % 64, 0x80 + v % 64]
  }

  function EncodeAll(vs: seq<scalar>): seq<byte> {
    if vs == [] then [] else Encode(vs[0]) + EncodeAll(vs[1..])
  }

  /** `bytes` is the UTF-8 encoding of some sequence of scalar values. */
  ghost predicate IsUtf8(bytes: seq<byte>) {
    exists vs: seq<scalar> :: EncodeAll(vs) == bytes
  }

  /** The number the payload bits of a group spell, big end first. */
  function Decode(g: seq<byte>): int
    requires 1 <= |g| <= 4
  {
    var lead: int := g[0];
    if |g| == 1 then lead
    else
      var b1: int := g[1];
      if |g| == 2 then (lead - 0xC0) * 64 + (b1 - 0x80)
      else
        var b2: int := g[2];
        if |g| == 3 then (lead - 0xE0) * 4096 + (b1 - 0x80) * 64 + (b2 - 0x80)
        else
          var b3: int := g[3];
          (lead - 0xF0) * 262144 + (b1 - 0x80) * 4096 + (b2 - 0x80) * 64 + (b3 - 0x80)
  }

  lemma DecodeInvertsEncode(v: scalar)
    ensures Decode(Encode(v)) == v
  {
    assert v / 64 / 64 == v / 4096;
    assert v / 4096 / 64 == v / 262144;
  }

  /** How many bytes a group with this lead byte has. */
  function LengthFor(lead: byte): nat {
    if lead < 0x80 then 1 else if lead < 0xE0 then 2 else if lead < 0xF0 then 3 else 4
  }

  /** No encoding is a proper prefix of another, and encodings are distinct. */
  lemma EncodeIsPrefixFree(v: scalar, w: scalar, r: seq<byte>, t: seq<byte>)
    requires Encode(v) + r == Encode(w) + t
    ensures v == w && r == t
  {
    var s := Encode(v) + r;
    assert s[0] == Encode(v)[0] && s[0] == Encode(w)[0];
    assert |Encode(v)| == LengthFor(s[0]) == |Encode(w)|;
    assert Encode(v) == s[..LengthFor(s[0])] == Encode(w);
    assert r == s[LengthFor(s[0])..] == t;
    DecodeInvertsEncode(v);
    DecodeInvertsEncode(w);
  }

  /** Decoding is unambiguous: the scanner's verdict identifies one text. */
  lemma {:induction false} EncodeAllIsInjective(vs: seq<scalar>, ws: seq<scalar>)
    requires EncodeAll(vs) == EncodeAll(ws)
    ensures vs == ws
  {
    if vs == [] || ws == [] {
    } else {
      EncodeIsPrefixFree(vs[0], ws[0], EncodeAll(vs[1..]), EncodeAll(ws[1..]));
      EncodeAllIsInjective(vs[1..], ws[1..]);
    }
  }

  /** Removing one leading encoding changes nothing about being UTF-8. */
  lemma DropHead(v: scalar, rest: seq<byte>)
    ensures IsUtf8(Encode(v) + rest) <==> IsUtf8(rest)
  {
    if IsUtf8(rest) {
      var vs :| EncodeAll(vs) == rest;
      assert ([v] + vs)[1..] == vs;
      assert EncodeAll([v] + vs) == Encode(v) + rest;
    }
    if IsUtf8(Encode(v) + rest) {
      var ws :| EncodeAll(ws) == Encode(v) + rest;
      assert ws != [];
      EncodeIsPrefixFree(ws[0], v, EncodeAll(ws[1..]), rest);
    }
  }

  /** A nonempty input that starts with no scalar value's encoding is not UTF-8. */
  lemma NoHead(bytes: seq<byte>)
    requires bytes != []
    requires forall v: scalar :: !(Encode(v) <= bytes)
    ensures !IsUtf8(bytes)
  {
    forall vs: seq<scalar> ensures EncodeAll(vs) != bytes {
      assert vs != [] ==> Encode(vs[0]) <= EncodeAll(vs);
    }
  }

  predicate InRange(b: byte, low: byte, high: byte) {
    low <= b <= high
  }

  predicate IsContinuation(b: byte) {
    InRange(b, 0x80, 0xBF)
  }

  /** The byte ranges of section 4 of RFC 3629 for a group of `n` bytes at index `i`. */
  predicate GroupAt(text: seq<byte>, i: nat, n: nat) {
    && 1 <= n <= 4 && i + n <= |text|
    && (n == 1 ==> text[i] <= 0x7F)
    && (n == 2 ==> 0xC2 <= text[i] <= 0xDF && IsContinuation(text[i + 1]))
    && (n == 3 ==> && 0xE0 <= text[i] <= 0xEF
                   && IsContinuation(text[i + 1]) && IsContinuation(text[i + 2])
                   && (text[i] == 0xE0 ==> 0xA0 <= text[i + 1])
                   && (text[i] == 0xED ==> text[i + 1] <= 0x9F))
    && (n == 4 ==> && 0xF0 <= text[i] <= 0xF4
                   && IsContinuation(text[i + 1]) && IsContinuation(text[i + 2]) && IsContinuation(text[i + 3])
                   && (text[i] == 0xF0 ==> 0x90 <= text[i + 1])
                   && (text[i] == 0xF4 ==> text[i + 1] <= 0x8F))
  }

  /** Base-64 digits can be read back from the number they spell. */
  lemma Digits(a: int, b: int, c: int, d: int)
    requires 0 <= a && 0 <= b < 64 && 0 <= c < 64 && 0 <= d < 64
    ensures var v := a * 262144 + b * 4096 + c * 64 + d;
            v / 262144 == a && v / 4096 % 64 == b && v / 64 % 64 == c && v % 64 == d
            && (a == 0 ==> v / 4096 == b) && (a == b == 0 ==> v / 64 == c)
  {
    var v := a * 262144 + b * 4096 + c * 64 + d;
    assert v / 64 == a * 4096 + b * 64 + c;
    assert v / 4096 == a * 64 + b;
  }

  lemma TwoBytes(g: seq<byte>)
    requires |g| == 2 && 0xC2 <= g[0] <= 0xDF && IsContinuation(g[1])
    ensures 0x80 <= Decode(g) < 0x800 && Encode(Decode(g)) == g
  {
    Digits(0, 0, g[0] as int - 0xC0, g[1] as int - 0x80);
  }

  lemma ThreeBytes(g: seq<byte>)
    requires |g| == 3 && 0xE0 <= g[0] <= 0xEF && IsContinuation(g[1]) && IsContinuation(g[2])
    requires (g[0] == 0xE0 ==> 0xA0 <= g[1]) && (g[0] == 0xED ==> g[1] <= 0x9F)
    ensures var v := Decode(g); 0x800 <= v < 0x10000 && (v < 0xD800 || 0xE000 <= v) && Encode(v) == g
  {
    Digits(0, g[0] as int - 0xE0, g[1] as int - 0x80, g[2] as int - 0x80);
  }

  lemma FourBytes(g: seq<byte>)
    requires |g| == 4 && 0xF0 <= g[0] <= 0xF4 && IsContinuation(g[1]) && IsContinuation(g[2]) && IsContinuation(g[3])
    requires (g[0] == 0xF0 ==> 0x90 <= g[1]) && (g[0] == 0xF4 ==> g[1] <= 0x8F)
    ensures var v := Decode(g); 0x10000 <= v <= 0x10FFFF && Encode(v) == g
  {
    Digits(g[0] as int - 0xF0, g[1] as int - 0x80, g[2] as int - 0x80, g[3] as int - 0x80);
  }

  /** A group in range is the encoding of the scalar value it spells. */
  lemma GroupIsEncoding(text: seq<byte>, i: nat, n: nat)
    requires GroupAt(text, i, n)
    ensures var v := Decode(text[i..i + n]);
            (v < 0xD800 || 0xE000 <= v) && 0 <= v <= 0x10FFFF && Encode(v) == text[i..i + n]
  {
    var g := text[i..i + n];
    if n == 1 {
      assert g == [text[i]];
    } else if n == 2 {
      assert g == [text[i], text[i + 1]];
      TwoBytes(g);
    } else if n == 3 {
      assert g == [text[i], text[i + 1], text[i + 2]];
      ThreeBytes(g);
    } else {
      assert g == [text[i], text[i + 1], text[i + 2], text[i + 3]];
      FourBytes(g);
    }
  }

  /** Every encoding at the front of a text is a group in range. */
  lemma EncodingIsGroup(v: scalar, text: seq<byte>, i: nat)
    requires i <= |text| && Encode(v) <= text[i..]
    ensures GroupAt(text, i, |Encode(v)|)
  {
    var n := |Encode(v)|;
    forall k | 0 <= k < n ensures text[i + k] == Encode(v)[k] {
      assert text[i..][k] == Encode(v)[k];
    }
  }

  lemma Accept(text: seq<byte>, i: nat, n: nat)
    requires GroupAt(text, i, n)
    ensures IsUtf8(text[i..]) <==> IsUtf8(text[i + n..])
  {
    GroupIsEncoding(text, i, n);
    var v: scalar := Decode(text[i..i + n]);
    assert text[i..] == Encode(v) + text[i + n..];
    DropHead(v, text[i + n..]);
  }

  lemma Reject(text: seq<byte>, i: nat)
    requires i < |text|
    requires forall n: nat :: !GroupAt(text, i, n)
    ensures !IsUtf8(text[i..])
  {
    forall v: scalar ensures !(Encode(v) <= text[i..]) {
      if Encode(v) <= text[i..] {
        EncodingIsGroup(v, text, i);
      }
    }
    NoHead(text[i..]);
  }

  /** The scanner accepts exactly the UTF-8 texts; a null line is refused. */
  method IsValidUtf8(data: array?<byte>, size: nat) returns (ok: bool)
    requires data != null ==> size <= data.Length
    ensures ok <==> data != null && IsUtf8(data[..size])
  {
    if data == null {
      return false;
    }
    ghost var text := data[..size];
    assert text == text[0..];
    var i := 0;
    while i < size
      invariant 0 <= i <= size
      invariant IsUtf8(text) <==> IsUtf8(text[i..])
    {
      var c := data[i];
      if c <= 0x7F {
        Accept(text, i, 1);
        i := i + 1;
        continue;
      }
      if c >= 0xC2 && c <= 0xDF {
        if i + 1 >= size || !IsContinuation(data[i + 1]) {
          Reject(text, i);
          return false;
        }
        Accept(text, i, 2);
        i := i + 2;
        continue;
      }
      if c == 0xE0 {
        if i + 2 >= size || !InRange(data[i + 1], 0xA0, 0xBF) || !IsContinuation(data[i + 2]) {
          Reject(text, i);
          return false;
        }
        Accept(text, i, 3);
        i := i + 3;
        continue;
      }
      if (c >= 0xE1 && c <= 0xEC) || (c >= 0xEE && c <= 0xEF) {
        if i + 2 >= size || !IsContinuation(data[i + 1]) || !IsContinuation(data[i + 2]) {
          Reject(text, i);
          return false;
        }
        Accept(text, i, 3);
        i := i + 3;
        continue;
      }
      if c == 0xED {
        if i + 2 >= size || !InRange(data[i + 1], 0x80, 0x9F) || !IsContinuation(data[i + 2]) {
          Reject(text, i);
          return false;
        }
        Accept(text, i, 3);
        i := i + 3;
        continue;
      }
      if c == 0xF0 {
        if i + 3 >= size || !InRange(data[i + 1], 0x90, 0xBF) ||
           !IsContinuation(data[i + 2]) || !IsContinuation(data[i + 3]) {
          Reject(text, i);
          return false;
        }
        Accept(text, i, 4);
        i := i + 4;
        continue;
      }
      if c >= 0xF1 && c <= 0xF3 {
        if i + 3 >= size || !IsContinuation(data[i + 1]) ||
           !IsContinuation(data[i + 2]) || !IsContinuation(data[i + 3]) {
          Reject(text, i);
          return false;
        }
        Accept(text, i, 4);
        i := i + 4;
        continue;
      }
      if c == 0xF4 {
        if i + 3 >= size || !InRange(data[i + 1], 0x80, 0x8F) ||
           !IsContinuation(data[i + 2]) || !IsContinuation(data[i + 3]) {
          Reject(text, i);
          return false;
        }
        Accept(text, i, 4);
        i := i + 4;
        continue;
      }
      Reject(text, i);
      return false;
    }
    assert EncodeAll([]) == text[i..];
    return true;
  }

}
