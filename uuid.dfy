/** `UuidUtils.generate_uuid`: in counter mode a deterministic
  * "uuid-counter-N" from a process-wide counter; otherwise an RFC 4122
  * version-4 uuid built from sixteen random bytes, which are a parameter
  * here. */
module Uuids {
  import opened Wrappers
  import opened Bytes

  type digit = x: int | 0 <= x < 10
  type nibble = x: int | 0 <= x < 16

  /** Decimal spelling of a natural number, as Python's `str(int)`. */
  function DecimalChar(d: digit): (c: char)
    ensures '0' <= c <= '9' && c as int == '0' as int + d
  {
    ('0' as int + d) as char
  }

  function DigitValue(c: char): (r: Option<digit>)
    ensures r.Some? <==> '0' <= c <= '9'
    ensures r.Some? ==> DecimalChar(r.value) == c
  {
    if '0' <= c <= '9' then Some((c - '0') as int) else None
  }

  function Decimal(n: nat): (s: string)
    ensures |s| > 0
    ensures forall i :: 0 <= i < |s| ==> '0' <= s[i] <= '9'
  {
    if n < 10 then [DecimalChar(n)] else Decimal(n / 10) + [DecimalChar(n % 10)]
  }

  /** Reads back a non-empty run of decimal digits. */
  function ParseDecimal(s: string): Option<nat>
    decreases |s|
  {
    if |s| == 0 then None
    else
      var last :- DigitValue(s[|s| - 1]);
      if |s| == 1 then Some(last)
      else
        var high :- ParseDecimal(s[..|s| - 1]);
        Some(high * 10 + last)
  }

  lemma {:induction false} ParseDecimalOfDecimal(n: nat)
    ensures ParseDecimal(Decimal(n)) == Some(n)
    decreases n
  {
    var s := Decimal(n);
    assert DigitValue(DecimalChar(n % 10)) == Some(n % 10);
    if n >= 10 {
      ParseDecimalOfDecimal(n / 10);
      assert s[..|s| - 1] == Decimal(n / 10);
    }
  }

  const CounterPrefix := "uuid-counter-"

  /** The counter-mode identifier for counter value n. */
  function CounterId(n: nat): (s: string)
    ensures |s| > |CounterPrefix| && s[..|CounterPrefix|] == CounterPrefix
  {
    CounterPrefix + Decimal(n)
  }

  function ParseCounterId(s: string): Option<nat>
  {
    if |s| < |CounterPrefix| || s[..|CounterPrefix|] != CounterPrefix then None
    else ParseDecimal(s[|CounterPrefix|..])
  }

  /** The counter value can be read back from the identifier. */
  lemma ParseCounterIdOfCounterId(n: nat)
    ensures ParseCounterId(CounterId(n)) == Some(n)
  {
    assert CounterId(n)[|CounterPrefix|..] == Decimal(n);
    ParseDecimalOfDecimal(n);
  }

  /** Different counter values give different identifiers. */
  lemma CounterIdInjective(m: nat, n: nat)
    ensures CounterId(m) == CounterId(n) ==> m == n
  {
    ParseCounterIdOfCounterId(m);
    ParseCounterIdOfCounterId(n);
  }

  /** Lower-case hexadecimal spelling of one byte, high nibble first. */
  predicate IsHexDigit(c: char)
  {
    '0' <= c <= '9' || 'a' <= c <= 'f'
  }

  function HexChar(v: nibble): (c: char)
    ensures IsHexDigit(c)
  {
    if v < 10 then ('0' as int + v) as char else ('a' as int + v - 10) as char
  }

  function HexValue(c: char): (r: Option<nibble>)
    ensures r.Some? ==> HexChar(r.value) == c
  {
    if '0' <= c <= '9' then Some((c - '0') as int)
    else if 'a' <= c <= 'f' then Some((c - 'a') as int + 10)
    else None
  }

  lemma HexValueOfHexChar(v: nibble)
    ensures HexValue(HexChar(v)) == Some(v)
  {
  }

  /** `bytes.hex()`: two lower-case hex digits per byte. */
  function Hex(b: seq<byte>): (s: string)
    ensures |s| == 2 * |b|
    ensures forall i :: 0 <= i < |s| ==> IsHexDigit(s[i])
  {
    if b == [] then [] else [HexChar(b[0] / 16), HexChar(b[0] % 16)] + Hex(b[1..])
  }

  /** `bytes.fromhex` for unseparated lower-case digits. */
  function Unhex(s: string): Option<seq<byte>>
    decreases |s|
  {
    if |s| == 0 then Some([])
    else if |s| == 1 then None
    else
      var hi :- HexValue(s[0]);
      var lo :- HexValue(s[1]);
      var rest :- Unhex(s[2..]);
      Some([hi * 16 + lo] + rest)
  }

  /** Reading the two hex digits of byte x in front of a string. */
  lemma UnhexCons(x: byte, t: string, rest: seq<byte>)
    requires Unhex(t) == Some(rest)
    ensures Unhex([HexChar(x / 16), HexChar(x % 16)] + t) == Some([x] + rest)
  {
    var s := [HexChar(x / 16), HexChar(x % 16)] + t;
    HexValueOfHexChar(x / 16);
    HexValueOfHexChar(x % 16);
    assert s[0] == HexChar(x / 16) && s[1] == HexChar(x % 16) && s[2..] == t;
    assert x / 16 * 16 + x % 16 == x;
  }

  lemma UnhexHexStep(x: byte, t: seq<byte>)
    requires Unhex(Hex(t)) == Some(t)
    ensures Unhex(Hex([x] + t)) == Some([x] + t)
  {
    assert ([x] + t)[0] == x && ([x] + t)[1..] == t;
    UnhexCons(x, Hex(t), t);
  }

  lemma {:induction false} UnhexHex(b: seq<byte>)
    ensures Unhex(Hex(b)) == Some(b)
    decreases |b|
  {
    if b != [] {
      UnhexHex(b[1..]);
      UnhexHexStep(b[0], b[1..]);
      assert [b[0]] + b[1..] == b;
    }
  }

  /** Byte 6 after version fixing: high nibble 4 (version 4, section 4.1.3
    * of RFC 4122), low nibble kept. */
  function WithVersion(x: byte): (r: byte)
    ensures r / 16 == 4 && r % 16 == x % 16
  {
    x % 0x10 + 0x40
  }

  /** Byte 8 after variant fixing: top two bits 10 (section 4.1.1 of
    * RFC 4122), low six bits kept. */
  function WithVariant(x: byte): (r: byte)
    ensures r / 64 == 2 && r % 64 == x % 64
  {
    x % 0x40 + 0x80
  }

  /** The bit fixing of section 4.4 of RFC 4122, done in place on a copy of
    * the random bytes. */
  method FixVersionAndVariant(random: seq<byte>) returns (b: seq<byte>)
    requires |random| == 16
    ensures |b| == 16
    ensures b[6] / 16 == 4 && b[6] % 16 == random[6] % 16
    ensures b[8] / 64 == 2 && b[8] % 64 == random[8] % 64
    ensures forall i :: 0 <= i < 16 && i != 6 && i != 8 ==> b[i] == random[i]
  {
    b := random;
    b := b[6 := WithVersion(b[6])];
    b := b[8 := WithVariant(b[8])];
  }

  /** The 8-4-4-4-12 layout of the 32 hex digits. */
  function Hyphenate(h: string): (s: string)
    requires |h| == 32
    ensures |s| == 36
    ensures s[8] == '-' && s[13] == '-' && s[18] == '-' && s[23] == '-'
    ensures s[..8] == h[..8] && s[9..13] == h[8..12] && s[14..18] == h[12..16]
    ensures s[19..23] == h[16..20] && s[24..] == h[20..]
  {
    h[0..8] + "-" + h[8..12] + "-" + h[12..16] + "-" + h[16..20] + "-" + h[20..32]
  }

  /** Removes the four hyphens of a 36-character uuid. */
  function Unhyphenate(s: string): Option<string>
  {
    if |s| != 36 || s[8] != '-' || s[13] != '-' || s[18] != '-' || s[23] != '-' then None
    else Some(s[..8] + s[9..13] + s[14..18] + s[19..23] + s[24..])
  }

  lemma UnhyphenateHyphenate(h: string)
    requires |h| == 32
    ensures Unhyphenate(Hyphenate(h)) == Some(h)
  {
    var s := Hyphenate(h);
    assert s[..8] + s[9..13] + s[14..18] + s[19..23] + s[24..] ==
      h[..8] + h[8..12] + h[12..16] + h[16..20] + h[20..];
    assert h == h[..8] + h[8..12] + h[12..16] + h[16..20] + h[20..];
  }

  /** `_generate_uuid_v4_with_numpy` with its sixteen random bytes given. */
  method UuidV4(random: seq<byte>) returns (s: string)
    requires |random| == 16
    ensures |s| == 36
    ensures s[8] == '-' && s[13] == '-' && s[18] == '-' && s[23] == '-'
    ensures forall i :: 0 <= i < 36 && i != 8 && i != 13 && i != 18 && i != 23 ==>
      IsHexDigit(s[i])
    ensures ParseUuid(s).Some? && |ParseUuid(s).value| == 16
    ensures ParseUuid(s).value[6] / 16 == 4 && ParseUuid(s).value[6] % 16 == random[6] % 16
    ensures ParseUuid(s).value[8] / 64 == 2 && ParseUuid(s).value[8] % 64 == random[8] % 64
    ensures forall i :: 0 <= i < 16 && i != 6 && i != 8 ==> ParseUuid(s).value[i] == random[i]
  {
    var b := FixVersionAndVariant(random);
    var h := Hex(b);
    s := Hyphenate(h);
    UuidRoundTrip(b);
    forall i | 0 <= i < 36 && i != 8 && i != 13 && i != 18 && i != 23
      ensures IsHexDigit(s[i])
    {
      if i < 8 { assert s[i] == s[..8][i] == h[i]; }
      else if i < 13 { assert s[i] == s[9..13][i - 9] == h[i - 1]; }
      else if i < 18 { assert s[i] == s[14..18][i - 14] == h[i - 2]; }
      else if i < 23 { assert s[i] == s[19..23][i - 19] == h[i - 3]; }
      else { assert s[i] == s[24..][i - 24] == h[i - 4]; }
    }
  }

  /** Reads the sixteen bytes back from a formatted uuid. */
  function ParseUuid(s: string): Option<seq<byte>>
  {
    var h :- Unhyphenate(s);
    Unhex(h)
  }

  lemma UuidRoundTrip(b: seq<byte>)
    requires |b| == 16
    ensures ParseUuid(Hyphenate(Hex(b))) == Some(b)
  {
    UnhyphenateHyphenate(Hex(b));
    UnhexHex(b);
  }

  /** The class-level counter `GSP_UUID_COUNTER`, and whether the
    * environment variable that selects counter mode is set. */
  class UuidUtils {
    var counter: nat
    const counterMode: bool

    constructor(counterMode: bool)
      ensures counter == 0 && this.counterMode == counterMode
    {
      counter := 0;
      this.counterMode := counterMode;
    }

    /** `generate_uuid`: in counter mode returns the identifier of the
      * current counter and advances it; otherwise a version-4 uuid from
      * the given random bytes, with the counter untouched. */
    method GenerateUuid(random: seq<byte>) returns (s: string)
      requires |random| == 16
      modifies this
      ensures counterMode ==> s == CounterId(old(counter)) && counter == old(counter) + 1
      ensures !counterMode ==> |s| == 36 && counter == old(counter)
      ensures !counterMode ==> s[8] == '-' && s[13] == '-' && s[18] == '-' && s[23] == '-'
      ensures !counterMode ==> forall i :: 0 <= i < 36 && i != 8 && i != 13 && i != 18 && i != 23 ==>
        IsHexDigit(s[i])
      ensures !counterMode ==> ParseUuid(s).Some? && |ParseUuid(s).value| == 16
      ensures !counterMode ==>
        ParseUuid(s).value[6] / 16 == 4 && ParseUuid(s).value[6] % 16 == random[6] % 16
        && ParseUuid(s).value[8] / 64 == 2 && ParseUuid(s).value[8] % 64 == random[8] % 64
      ensures !counterMode ==> forall i :: 0 <= i < 16 && i != 6 && i != 8 ==> ParseUuid(s).value[i] == random[i]
    {
      if counterMode {
        s := CounterId(counter);
        counter := counter + 1;
      } else {
        s := UuidV4(random);
      }
    }
  }

  /** In counter mode two successive calls return different identifiers. */
  method SuccessiveIdsDiffer(u: UuidUtils, r1: seq<byte>, r2: seq<byte>) returns (a: string, b: string)
    requires u.counterMode && |r1| == 16 && |r2| == 16
    modifies u
    ensures a != b
  {
    a := u.GenerateUuid(r1);
    b := u.GenerateUuid(r2);
    CounterIdInjective(old(u.counter), old(u.counter) + 1);
  }
}
