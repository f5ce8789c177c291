/** UTF-8 (section 3 of RFC 3629), with Python's decoder under `errors="ignore"`, and the
    byte-bounded prefix of `tools/curator-embed/seed_topic.py`. A Dafny `char` is a Unicode scalar
    value; a Python string may also hold surrogates, which cannot be encoded. */
module Utf8 {
  import opened Base

  type Byte = b: int | 0 <= b < 256

  // ---------- encoding ----------

  function EncodeOne(c: char): (r: seq<Byte>)
    ensures 1 <= |r| <= 4
  {
    var n := c as int;
    if n < 0x80 then [n]
    else if n < 0x800 then [0xC0 + n / 64, 0x80 + n % 64]
    else if n < 0x1_0000 then [0xE0 + n / 4096, 0x80 + n / 64 % 64, 0x80 + n % 64]
    else [0xF0 + n / 262144, 0x80 + n / 4096 % 64, 0x80 + n / 64 % 64, 0x80 + n % 64]
  }

  function Encode(s: string): seq<Byte> {
    if s == [] then [] else EncodeOne(s[0]) + Encode(s[1..])
  }

  // ---------- decoding, dropping what is malformed ----------

  predicate Continues(b: Byte) {
    0x80 <= b < 0xC0
  }

  /** Length announced by a first byte; 0 if none can start with it. */
  function Announced(b: Byte): nat {
    if b < 0x80 then 1
    else if 0xC2 <= b < 0xE0 then 2
    else if 0xE0 <= b < 0xF0 then 3
    else if 0xF0 <= b < 0xF5 then 4
    else 0
  }

  /** The second byte also excludes overlong forms, surrogates and values above U+10FFFF. */
  predicate SecondFits(first: Byte, second: Byte) {
    && Continues(second)
    && (first == 0xE0 ==> second >= 0xA0) && (first == 0xED ==> second < 0xA0)
    && (first == 0xF0 ==> second >= 0x90) && (first == 0xF4 ==> second < 0x90)
  }

  datatype Scan = Emit(c: char, length: nat) | Skip(length: nat) | Cut

  /** What the decoder finds at the head of its input: a character, an error of some length, or a
      sequence the end of the input cuts short. */
  function Head(b: seq<Byte>): (r: Scan)
    requires b != []
    ensures !r.Cut? ==> 1 <= r.length <= |b|
  {
    var n := Announced(b[0]);
    if n == 0 then Skip(1)
    else if n == 1 then Emit(b[0] as char, 1)
    else if |b| < 2 then Cut
    else if !SecondFits(b[0], b[1]) then Skip(1)
    else if n == 2 then Emit(((b[0] as int - 0xC0) * 64 + (b[1] as int - 0x80)) as char, 2)
    else if |b| < 3 then Cut
    else if !Continues(b[2]) then Skip(2)
    else if n == 3 then Emit(((b[0] as int - 0xE0) * 4096 + (b[1] as int - 0x80) * 64 + (b[2] as int - 0x80)) as char, 3)
    else if |b| < 4 then Cut
    else if !Continues(b[3]) then Skip(3)
    else Emit(((b[0] as int - 0xF0) * 262144 + (b[1] as int - 0x80) * 4096 + (b[2] as int - 0x80) * 64 + (b[3] as int - 0x80)) as char, 4)
  }

  function DecodeIgnore(b: seq<Byte>): string {
    if b == [] then []
    else
      match Head(b)
      case Emit(c, length) => [c] + DecodeIgnore(b[length..])
      case Skip(length) => DecodeIgnore(b[length..])
      case Cut => []
  }

  // ---------- the prefix ----------

  /** The specification: how many characters of `s`, from the left, fit into `limit` bytes. */
  function Fitting(s: string, limit: nat): (k: nat)
    ensures k <= |s|
  {
    if s == [] || |EncodeOne(s[0])| > limit then 0
    else 1 + Fitting(s[1..], limit - |EncodeOne(s[0])|)
  }

  /** `value.encode("utf-8")[:limit].decode("utf-8", "ignore")`. */
  function Utf8Prefix(s: string, limit: nat): string {
    var bytes := Encode(s);
    DecodeIgnore(bytes[..Min(limit, |bytes|)])
  }

  lemma {:induction false} FittingIsLongest(s: string, limit: nat)
    ensures var k := Fitting(s, limit);
      && |Encode(s[..k])| <= limit
      && (forall j :: k < j <= |s| ==> |Encode(s[..j])| > limit)
  {
    if s != [] {
      forall j | 1 <= j <= |s| ensures Encode(s[..j]) == EncodeOne(s[0]) + Encode(s[1..][..j - 1]) {
        assert s[..j][1..] == s[1..][..j - 1];
      }
      if |EncodeOne(s[0])| <= limit {
        FittingIsLongest(s[1..], limit - |EncodeOne(s[0])|);
      }
    }
  }

  /** Decoding what begins with a whole character yields it and goes on behind it. */
  lemma HeadOfEncoding(c: char, rest: seq<Byte>)
    ensures Head(EncodeOne(c) + rest) == Emit(c, |EncodeOne(c)|)
  {
    var n := c as int;
    var b := EncodeOne(c) + rest;
    assert b[..|EncodeOne(c)|] == EncodeOne(c);
    if n < 0x80 {
    } else if n < 0x800 {
      Split(n, 64);
    } else if n < 0x1_0000 {
      Split(n, 64);
      Split(n / 64, 64);
      assert n / 4096 == n / 64 / 64;
    } else {
      Split(n, 64);
      Split(n / 64, 64);
      Split(n / 4096, 64);
      assert n / 4096 == n / 64 / 64 && n / 262144 == n / 4096 / 64;
    }
  }

  lemma Split(n: nat, d: nat)
    requires d == 64
    ensures n == n / d * d + n % d && n % d < d
  {
  }

  /** A character cut short by the end of the input yields nothing. */
  lemma CutCharacterIsDropped(c: char, k: nat)
    requires k < |EncodeOne(c)|
    ensures DecodeIgnore(EncodeOne(c)[..k]) == []
  {
    if k > 0 {
      HeadOfEncoding(c, []);
      assert EncodeOne(c) + [] == EncodeOne(c);
      assert Head(EncodeOne(c)[..k]) == Cut;
    }
  }

  /** Truncating the encoding at any byte and dropping what no longer decodes gives exactly the
      longest prefix of the string whose encoding fits. */
  lemma {:induction false} PrefixIsLongestFitting(s: string, limit: nat)
    ensures Utf8Prefix(s, limit) == s[..Fitting(s, limit)]
  {
    var bytes := Encode(s);
    if s != [] {
      var first, tail := EncodeOne(s[0]), s[1..];
      if |first| <= limit {
        PrefixIsLongestFitting(tail, limit - |first|);
        var rest := Encode(tail)[..Min(limit - |first|, |Encode(tail)|)];
        assert bytes[..Min(limit, |bytes|)] == first + rest;
        HeadOfEncoding(s[0], rest);
        assert (first + rest)[|first|..] == rest;
        assert s[..Fitting(s, limit)] == [s[0]] + tail[..Fitting(tail, limit - |first|)];
      } else {
        assert bytes[..limit] == first[..limit];
        CutCharacterIsDropped(s[0], limit);
      }
    }
  }

  /** Round trip: decoding an encoding gives the string back, so no two strings share one. */
  lemma DecodeEncode(s: string)
    ensures DecodeIgnore(Encode(s)) == s
  {
    var bytes := Encode(s);
    PrefixIsLongestFitting(s, |bytes|);
    FittingIsLongest(s, |bytes|);
    assert bytes[..|bytes|] == bytes;
    assert s[..|s|] == s;
  }

  lemma {:induction false} EncodeConcat(a: string, b: string)
    ensures Encode(a + b) == Encode(a) + Encode(b)
  {
    if a == [] {
      assert a + b == b;
    } else {
      EncodeConcat(a[1..], b);
      assert (a + b)[1..] == a[1..] + b;
    }
  }

  /** Dropping malformed bytes never makes the encoding longer, whatever the bytes. */
  lemma {:induction false} DecodingNeverGrows(b: seq<Byte>)
    ensures |Encode(DecodeIgnore(b))| <= |b|
    decreases |b|
  {
    if b != [] {
      match Head(b)
      case Emit(c, length) =>
        DecodingNeverGrows(b[length..]);
        assert DecodeIgnore(b)[1..] == DecodeIgnore(b[length..]);
        EmittedLength(b);
      case Skip(length) =>
        DecodingNeverGrows(b[length..]);
      case Cut =>
    }
  }

  lemma EmittedLength(b: seq<Byte>)
    requires b != [] && Head(b).Emit?
    ensures EncodeOne(Head(b).c) == b[..Head(b).length]
  {
    hide EncodeOne;
    var n := Announced(b[0]);
    if n == 1 {
      EncodesOne(b[0]);
    } else if n == 2 {
      EncodesTwo(b[0] as int - 0xC0, b[1] as int - 0x80);
    } else if n == 3 {
      EncodesThree(b[0] as int - 0xE0, b[1] as int - 0x80, b[2] as int - 0x80);
    } else {
      EncodesFour(b[0] as int - 0xF0, b[1] as int - 0x80, b[2] as int - 0x80, b[3] as int - 0x80);
    }
  }

  lemma EncodesOne(b: Byte)
    requires b < 0x80
    ensures EncodeOne(b as char) == [b]
  {
  }

  lemma EncodesTwo(x: int, y: int)
    requires 2 <= x < 32 && 0 <= y < 64
    ensures EncodeOne((x * 64 + y) as char) == [0xC0 + x, 0x80 + y]
  {
    Digits(x, y);
  }

  lemma EncodesThree(x: int, y: int, z: int)
    requires 0 <= x < 16 && 0 <= y < 64 && 0 <= z < 64 && (x == 0 ==> y >= 32) && (x == 13 ==> y < 32)
    ensures EncodeOne((x * 4096 + y * 64 + z) as char) == [0xE0 + x, 0x80 + y, 0x80 + z]
  {
    Digits(x, y);
    Digits(x * 64 + y, z);
    assert (x * 4096 + y * 64 + z) / 4096 == x;
  }

  lemma EncodesFour(x: int, y: int, z: int, u: int)
    requires 0 <= x < 5 && 0 <= y < 64 && 0 <= z < 64 && 0 <= u < 64 && (x == 0 ==> y >= 16) && (x == 4 ==> y < 16)
    ensures EncodeOne((x * 262144 + y * 4096 + z * 64 + u) as char) == [0xF0 + x, 0x80 + y, 0x80 + z, 0x80 + u]
  {
    var n := x * 262144 + y * 4096 + z * 64 + u;
    Digits(x, y);
    Digits(x * 64 + y, z);
    Digits((x * 64 + y) * 64 + z, u);
    assert n / 4096 == x * 64 + y && n / 262144 == x;
  }

  lemma Digits(high: int, low: int)
    requires 0 <= low < 64
    ensures (high * 64 + low) / 64 == high && (high * 64 + low) % 64 == low
  {
  }
}
