/** The asset downloader's test for a Git LFS pointer file: the content is
  * decoded as UTF-8 with undecodable bytes dropped, and the text must
  * start with the LFS version line and mention a sha256 object id. */
module AssetDownloads {
  import opened Bytes

  const VersionPrefix := "version https://git-lfs.github.com"
  const OidMarker := "oid sha256:"

  predicate IsContinuation(b: byte)
  {
    0x80 <= b <= 0xBF
  }

  /** The length of the well-formed UTF-8 sequence at the start of b, or 0
    * when b does not start with one (the table of well-formed byte
    * sequences of the Unicode standard, section 3.9). */
  function SequenceLength(b: seq<byte>): (n: nat)
    ensures n <= 4 && n <= |b|
    ensures |b| > 0 && b[0] < 0x80 ==> n == 1
  {
    if |b| == 0 then 0
    else if b[0] < 0x80 then 1
    else if 0xC2 <= b[0] <= 0xDF then
      (if |b| >= 2 && IsContinuation(b[1]) then 2 else 0)
    else if 0xE0 <= b[0] <= 0xEF then
      var lo := if b[0] == 0xE0 then 0xA0 else 0x80;
      var hi := if b[0] == 0xED then 0x9F else 0xBF;
      (if |b| >= 3 && lo <= b[1] <= hi && IsContinuation(b[2]) then 3 else 0)
    else if 0xF0 <= b[0] <= 0xF4 then
      var lo := if b[0] == 0xF0 then 0x90 else 0x80;
      var hi := if b[0] == 0xF4 then 0x8F else 0xBF;
      (if |b| >= 4 && lo <= b[1] <= hi && IsContinuation(b[2]) && IsContinuation(b[3]) then 4 else 0)
    else 0
  }

  predicate IsScalar(c: int)
  {
    0 <= c < 0xD800 || 0xE000 <= c <= 0x10FFFF
  }

  /** The code point a well-formed sequence of n bytes encodes. */
  function CodePoint(b: seq<byte>, n: nat): (c: int)
    requires 1 <= n <= |b| && SequenceLength(b) == n
    ensures IsScalar(c)
  {
    var b0: int := b[0];
    if n == 1 then b0
    else
      var b1: int := b[1];
      if n == 2 then (b0 - 0xC0) * 64 + (b1 - 0x80)
      else
        var b2: int := b[2];
        if n == 3 then (b0 - 0xE0) * 4096 + (b1 - 0x80) * 64 + (b2 - 0x80)
        else
          var b3: int := b[3];
          (b0 - 0xF0) * 262144 + (b1 - 0x80) * 4096 + (b2 - 0x80) * 64 + (b3 - 0x80)
  }

  /** `bytes.decode("utf-8", errors="ignore")`: each well-formed sequence
    * becomes its character and every other byte is dropped. A byte that
    * starts a broken sequence is dropped alone; the continuation bytes
    * after it cannot start a sequence and are dropped in turn. */
  function Decode(b: seq<byte>): (s: string)
    ensures |s| <= |b|
    decreases |b|
  {
    if |b| == 0 then []
    else
      var n := SequenceLength(b);
      if n == 0 then Decode(b[1..])
      else [CodePoint(b, n) as char] + Decode(b[n..])
  }

  /** The UTF-8 encoding of one character. */
  function EncodeChar(c: char): (r: seq<byte>)
    ensures 1 <= |r| <= 4
  {
    var x := c as int;
    if x < 0x80 then [x]
    else if x < 0x800 then [0xC0 + x / 64, 0x80 + x % 64]
    else if x < 0x10000 then [0xE0 + x / 4096, 0x80 + (x / 64) % 64, 0x80 + x % 64]
    else [0xF0 + x / 262144, 0x80 + (x / 4096) % 64, 0x80 + (x / 64) % 64, 0x80 + x % 64]
  }

  function Encode(s: string): seq<byte>
  {
    if |s| == 0 then [] else EncodeChar(s[0]) + Encode(s[1..])
  }

  lemma EncodeCharDecodes(c: char, rest: seq<byte>)
    ensures SequenceLength(EncodeChar(c) + rest) == |EncodeChar(c)|
    ensures CodePoint(EncodeChar(c) + rest, |EncodeChar(c)|) == c as int
  {
    var x := c as int;
    if x < 0x80 {
    } else if x < 0x800 {
      TwoBytes(x, rest);
    } else if x < 0x10000 {
      ThreeBytes(x, rest);
    } else {
      FourBytes(x, rest);
    }
  }

  lemma TwoBytes(x: int, rest: seq<byte>)
    requires 0x80 <= x < 0x800
    ensures var b := [0xC0 + x / 64, 0x80 + x % 64] + rest;
      SequenceLength(b) == 2 && CodePoint(b, 2) == x
  {
    var q, r := x / 64, x % 64;
    assert x == q * 64 + r && 0 <= r < 64;
    assert 2 <= q < 32;
  }

  lemma ThreeBytes(x: int, rest: seq<byte>)
    requires 0x800 <= x < 0x10000 && IsScalar(x)
    ensures var b := [0xE0 + x / 4096, 0x80 + (x / 64) % 64, 0x80 + x % 64] + rest;
      SequenceLength(b) == 3 && CodePoint(b, 3) == x
  {
    var q, r := x / 64, x % 64;
    assert x == q * 64 + r && 0 <= r < 64;
    var p, m := q / 64, q % 64;
    assert q == p * 64 + m && 0 <= m < 64;
    assert x / 4096 == p;
    assert x == p * 4096 + m * 64 + r;
    assert p == 0 ==> m >= 32;
    assert p == 13 ==> m < 32;
  }

  lemma FourBytes(x: int, rest: seq<byte>)
    requires 0x10000 <= x <= 0x10FFFF
    ensures var b := [0xF0 + x / 262144, 0x80 + (x / 4096) % 64, 0x80 + (x / 64) % 64, 0x80 + x % 64] + rest;
      SequenceLength(b) == 4 && CodePoint(b, 4) == x
  {
    var q, r := x / 64, x % 64;
    assert x == q * 64 + r && 0 <= r < 64;
    var p, m := q / 64, q % 64;
    assert q == p * 64 + m && 0 <= m < 64;
    var t, n := p / 64, p % 64;
    assert p == t * 64 + n && 0 <= n < 64;
    assert x / 4096 == p && x / 262144 == t;
    assert x == t * 262144 + n * 4096 + m * 64 + r;
    assert t == 0 ==> n >= 16;
    assert t == 4 ==> n < 16;
  }

  /** Decoding undoes encoding. */
  lemma {:induction false} DecodeEncode(s: string)
    ensures Decode(Encode(s)) == s
  {
    if |s| != 0 {
      var e := EncodeChar(s[0]);
      EncodeCharDecodes(s[0], Encode(s[1..]));
      assert (e + Encode(s[1..]))[|e|..] == Encode(s[1..]);
      DecodeEncode(s[1..]);
    }
  }

  /** Bytes below 0x80 decode to the characters with the same codes. */
  lemma {:induction false} DecodeAscii(b: seq<byte>)
    requires forall i :: 0 <= i < |b| ==> b[i] < 0x80
    ensures Decode(b) == seq(|b|, i requires 0 <= i < |b| => b[i] as char)
  {
    if |b| != 0 {
      DecodeAscii(b[1..]);
    }
  }

  /** A byte that can start no sequence is dropped. */
  lemma DecodeDropsStrayByte(x: byte, rest: seq<byte>)
    requires 0x80 <= x < 0xC2 || 0xF5 <= x
    ensures Decode([x] + rest) == Decode(rest)
  {
    assert ([x] + rest)[1..] == rest;
  }

  predicate StartsWith(s: string, prefix: string)
  {
    |prefix| <= |s| && s[..|prefix|] == prefix
  }

  /** Python's `sub in s`. */
  predicate Contains(s: string, sub: string)
    decreases |s|
  {
    StartsWith(s, sub) || (|s| > 0 && Contains(s[1..], sub))
  }

  /** `_is_lfs_pointer`. */
  predicate IsLfsPointer(content: seq<byte>)
  {
    var text := Decode(content);
    StartsWith(text, VersionPrefix) && Contains(text, OidMarker)
  }

  lemma {:induction false} ContainsAfter(a: string, sub: string, b: string)
    ensures Contains(a + sub + b, sub)
    decreases |a|
  {
    if |a| == 0 {
      assert (a + sub + b)[..|sub|] == sub;
    } else {
      assert (a + sub + b)[1..] == a[1..] + sub + b;
      ContainsAfter(a[1..], sub, b);
    }
  }

  /** On content that is the UTF-8 of some text, the test is exactly the
    * two conditions on that text. */
  lemma LfsPointerOfText(text: string)
    ensures IsLfsPointer(Encode(text)) <==> StartsWith(text, VersionPrefix) && Contains(text, OidMarker)
  {
    DecodeEncode(text);
  }

  /** A pointer file: the version line first, an object id later. */
  lemma PointerFileIsPointer(middle: string, rest: string)
    ensures IsLfsPointer(Encode(VersionPrefix + middle + OidMarker + rest))
  {
    var text := VersionPrefix + middle + OidMarker + rest;
    LfsPointerOfText(text);
    assert text[..|VersionPrefix|] == VersionPrefix;
    assert text == VersionPrefix + middle + OidMarker + rest;
    ContainsAfter(VersionPrefix + middle, OidMarker, rest);
  }

  /** The version line must come first: text before it rejects the file
    * even when both markers are present. */
  lemma LeadingTextIsNoPointer(rest: string)
    ensures !IsLfsPointer(Encode(" " + VersionPrefix + OidMarker + rest))
  {
    var text := " " + VersionPrefix + OidMarker + rest;
    LfsPointerOfText(text);
    assert text[0] == ' ' && VersionPrefix[0] == 'v';
    assert text[..|VersionPrefix|][0] == ' ';
  }

  /** Stray bytes in front of a pointer are dropped by the decoder, so the
    * file still counts as a pointer. */
  lemma StrayByteBeforePointer(x: byte, content: seq<byte>)
    requires 0x80 <= x < 0xC2 || 0xF5 <= x
    ensures IsLfsPointer([x] + content) == IsLfsPointer(content)
  {
    DecodeDropsStrayByte(x, content);
  }
}
