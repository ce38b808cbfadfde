/** Base64 with padding, as in section 4 of RFC 4648: the encoding the
  * serializers use for buffer bytes, and Python's `base64.b64decode` in its
  * default, non-strict mode, which skips characters outside the alphabet
  * and stops at the padding that completes a group. */
module Base64 {
  import opened Wrappers
  import opened Bytes

  type sextet = x: int | 0 <= x < 64

  /** The 64-character alphabet of section 4 of RFC 4648. */
  function Char(v: sextet): (c: char)
    ensures c != '='
  {
    if v < 26 then ('A' as int + v) as char
    else if v < 52 then ('a' as int + v - 26) as char
    else if v < 62 then ('0' as int + v - 52) as char
    else if v == 62 then '+'
    else '/'
  }

  /** The value of an alphabet character; None for every other character. */
  function Index(c: char): (r: Option<sextet>)
    ensures r.Some? ==> Char(r.value) == c
  {
    if 'A' <= c <= 'Z' then Some(c as int - 'A' as int)
    else if 'a' <= c <= 'z' then Some(c as int - 'a' as int + 26)
    else if '0' <= c <= '9' then Some(c as int - '0' as int + 52)
    else if c == '+' then Some(62)
    else if c == '/' then Some(63)
    else None
  }

  predicate IsAscii(s: string)
  {
    forall i :: 0 <= i < |s| ==> s[i] as int < 128
  }

  lemma IndexChar(v: sextet)
    ensures Index(Char(v)) == Some(v)
  {
  }

  /** Three bytes as four characters. */
  function Group3(b0: byte, b1: byte, b2: byte): string
  {
    [Char(b0 / 4), Char(b0 % 4 * 16 + b1 / 16), Char(b1 % 16 * 4 + b2 / 64), Char(b2 % 64)]
  }

  /** A final two bytes, padded with one '='. */
  function Group2(b0: byte, b1: byte): string
  {
    [Char(b0 / 4), Char(b0 % 4 * 16 + b1 / 16), Char(b1 % 16 * 4), '=']
  }

  /** A final single byte, padded with "==". */
  function Group1(b0: byte): string
  {
    [Char(b0 / 4), Char(b0 % 4 * 16), '=', '=']
  }

  /** `b64encode`: four characters per started group of three bytes. */
  function Encode(b: seq<byte>): (s: string)
    ensures |s| == 4 * ((|b| + 2) / 3)
    ensures forall i :: 0 <= i < |s| && s[i] != '=' ==> Index(s[i]).Some?
    decreases |b|
  {
    if |b| == 0 then ""
    else if |b| == 1 then Group1(b[0])
    else if |b| == 2 then Group2(b[0], b[1])
    else Group3(b[0], b[1], b[2]) + Encode(b[3..])
  }

  /** What the decoding loop of `binascii.a2b_base64` keeps between
    * characters: how many sextets of the current group it has read, the
    * bits of the last one not yet written, and the pad characters read
    * since then. */
  datatype State = State(quadPos: nat, leftChar: nat, pads: nat)

  const Start := State(0, 0, 0)

  /** The bits kept always fit in front of the next sextet's. */
  predicate Consistent(st: State)
  {
    st.quadPos < 4 && st.leftChar < (if st.quadPos <= 1 then 64 else if st.quadPos == 2 then 16 else 4)
  }

  /** The non-strict decoding loop from state st, with the bytes out
    * already written. A sextet completes a byte at every position but the
    * first of a group. A '=' read after two or three sextets of a group is
    * padding, and ends the input as soon as the group is complete; any
    * other '=' and every character outside the alphabet are skipped. Input
    * that ends inside a group is an error (None). */
  function Run(s: string, st: State, out: seq<byte>): (r: Option<seq<byte>>)
    requires Consistent(st)
    ensures r.Some? ==> |out| <= |r.value| && r.value[..|out|] == out
    decreases |s|
  {
    if |s| == 0 then
      if st.quadPos == 0 then Some(out) else None
    else if s[0] == '=' then
      if st.quadPos < 2 then Run(s[1..], st, out)
      else if st.quadPos + st.pads + 1 >= 4 then Some(out)
      else Run(s[1..], st.(pads := st.pads + 1), out)
    else
      match Index(s[0])
      case None => Run(s[1..], st, out)
      case Some(v) =>
        if st.quadPos == 0 then Run(s[1..], State(1, v, 0), out)
        else if st.quadPos == 1 then Run(s[1..], State(2, v % 16, 0), out + [st.leftChar * 4 + v / 16])
        else if st.quadPos == 2 then Run(s[1..], State(3, v % 4, 0), out + [st.leftChar * 16 + v / 4])
        else Run(s[1..], Start, out + [st.leftChar * 64 + v])
  }

  /** `b64decode(s.encode("utf-8"))`: UTF-8 writes a non-ASCII character
    * as bytes of 128 and above, none of them '=' or in the alphabet, so the
    * loop skips them as it would skip the character itself. */
  function DecodeUtf8(s: string): (r: Option<seq<byte>>)
    ensures IsAscii(s) ==> r == Decode(s)
  {
    Run(s, Start, [])
  }

  /** `b64decode` on a str: a character outside ASCII is a ValueError, and
    * otherwise the text goes through the non-strict loop; None wherever
    * Python raises (`binascii.Error` is a ValueError). */
  function Decode(s: string): (r: Option<seq<byte>>)
    ensures r.Some? ==> IsAscii(s)
  {
    if !IsAscii(s) then None else Run(s, Start, [])
  }

  lemma Group3Values(b0: byte, b1: byte, b2: byte)
    ensures (b0 / 4) * 4 + (b0 % 4 * 16 + b1 / 16) / 16 == b0
    ensures (b0 % 4 * 16 + b1 / 16) % 16 * 16 + (b1 % 16 * 4 + b2 / 64) / 4 == b1
    ensures (b1 % 16 * 4 + b2 / 64) % 4 * 64 + b2 % 64 == b2
  {
  }

  /** A full group of four characters writes its three bytes and leaves
    * the loop at the start of the next group. */
  lemma RunGroup3(b0: byte, b1: byte, b2: byte, rest: string, out: seq<byte>)
    ensures Run(Group3(b0, b1, b2) + rest, Start, out) == Run(rest, Start, out + [b0, b1, b2])
  {
    var v0, v1, v2, v3 := b0 / 4, b0 % 4 * 16 + b1 / 16, b1 % 16 * 4 + b2 / 64, b2 % 64;
    IndexChar(v0);
    IndexChar(v1);
    IndexChar(v2);
    IndexChar(v3);
    Group3Values(b0, b1, b2);
    var s := Group3(b0, b1, b2) + rest;
    assert s[1..][1..] == s[2..] && s[2..][1..] == s[3..] && s[3..][1..] == rest;
    assert out + [b0] + [b1] == out + [b0, b1] && out + [b0, b1] + [b2] == out + [b0, b1, b2];
    assert Run(s, Start, out) == Run(s[1..], State(1, v0, 0), out);
    assert Run(s[1..], State(1, v0, 0), out) == Run(s[2..], State(2, v1 % 16, 0), out + [b0]);
    assert Run(s[2..], State(2, v1 % 16, 0), out + [b0]) == Run(s[3..], State(3, v2 % 4, 0), out + [b0, b1]);
    assert Run(s[3..], State(3, v2 % 4, 0), out + [b0, b1]) == Run(rest, Start, out + [b0, b1, b2]);
  }

  /** A final group of two bytes ends at its pad: whatever follows it is
    * not read. */
  lemma RunGroup2(b0: byte, b1: byte, rest: string, out: seq<byte>)
    ensures Run(Group2(b0, b1) + rest, Start, out) == Some(out + [b0, b1])
  {
    var v0, v1, v2 := b0 / 4, b0 % 4 * 16 + b1 / 16, b1 % 16 * 4;
    IndexChar(v0);
    IndexChar(v1);
    IndexChar(v2);
    Group3Values(b0, b1, 0);
    var s := Group2(b0, b1) + rest;
    assert s[1..][1..] == s[2..] && s[2..][1..] == s[3..] && s[3] == '=';
    assert out + [b0] + [b1] == out + [b0, b1];
    assert Run(s, Start, out) == Run(s[1..], State(1, v0, 0), out);
    assert Run(s[1..], State(1, v0, 0), out) == Run(s[2..], State(2, v1 % 16, 0), out + [b0]);
    assert Run(s[2..], State(2, v1 % 16, 0), out + [b0]) == Run(s[3..], State(3, v2 % 4, 0), out + [b0, b1]);
  }

  /** A final group of one byte ends at its second pad: whatever follows
    * it is not read. */
  lemma RunGroup1(b0: byte, rest: string, out: seq<byte>)
    ensures Run(Group1(b0) + rest, Start, out) == Some(out + [b0])
  {
    var v0, v1 := b0 / 4, b0 % 4 * 16;
    IndexChar(v0);
    IndexChar(v1);
    var s := Group1(b0) + rest;
    assert s[1..][1..] == s[2..] && s[2..][1..] == s[3..] && s[2] == '=' && s[3] == '=';
    assert Run(s, Start, out) == Run(s[1..], State(1, v0, 0), out);
    assert Run(s[1..], State(1, v0, 0), out) == Run(s[2..], State(2, v1 % 16, 0), out + [b0]);
    assert Run(s[2..], State(2, v1 % 16, 0), out + [b0]) == Run(s[3..], State(2, v1 % 16, 1), out + [b0]);
  }

  /** The loop turns the encoding of b into b, after what it has written. */
  lemma {:induction false} RunEncode(b: seq<byte>, out: seq<byte>)
    ensures Run(Encode(b), Start, out) == Some(out + b)
    decreases |b|
  {
    if |b| == 0 {
      assert out + b == out;
    } else if |b| == 1 {
      RunGroup1(b[0], "", out);
      assert Encode(b) == Group1(b[0]) == Group1(b[0]) + "";
      assert [b[0]] == b;
    } else if |b| == 2 {
      RunGroup2(b[0], b[1], "", out);
      assert Encode(b) == Group2(b[0], b[1]) == Group2(b[0], b[1]) + "";
      assert [b[0], b[1]] == b;
    } else {
      var rest := b[3..];
      assert Encode(b) == Group3(b[0], b[1], b[2]) + Encode(rest);
      RunGroup3(b[0], b[1], b[2], Encode(rest), out);
      RunEncode(rest, out + [b[0], b[1], b[2]]);
      AppendGroup(out, b);
    }
  }

  lemma AppendGroup(out: seq<byte>, b: seq<byte>)
    requires |b| >= 3
    ensures out + [b[0], b[1], b[2]] + b[3..] == out + b
  {
    assert b == [b[0], b[1], b[2]] + b[3..];
  }

  /** Decoding inverts encoding for every byte sequence. */
  lemma DecodeEncode(b: seq<byte>)
    ensures Decode(Encode(b)) == Some(b)
  {
    var s := Encode(b);
    forall i | 0 <= i < |s| ensures s[i] as int < 128 {
      if s[i] != '=' {
        assert Index(s[i]).Some?;
      }
    }
    RunEncode(b, []);
    assert [] + b == b;
  }

  /** A character the loop skips can be dropped from anywhere in the text
    * without changing the result. */
  lemma {:induction false} RunSkips(a: string, c: char, b: string, st: State, out: seq<byte>)
    requires Consistent(st) && c != '=' && Index(c).None?
    ensures Run(a + [c] + b, st, out) == Run(a + b, st, out)
    decreases |a|
  {
    var s1, s2 := a + [c] + b, a + b;
    if |a| == 0 {
      assert s1[1..] == b && s2 == b;
    } else {
      assert s1[0] == a[0] && s2[0] == a[0];
      assert s1[1..] == a[1..] + [c] + b && s2[1..] == a[1..] + b;
      if a[0] == '=' {
        if st.quadPos < 2 {
          RunSkips(a[1..], c, b, st, out);
        } else if st.quadPos + st.pads + 1 < 4 {
          RunSkips(a[1..], c, b, st.(pads := st.pads + 1), out);
        }
      } else {
        match Index(a[0])
        case None =>
          RunSkips(a[1..], c, b, st, out);
        case Some(v) =>
          if st.quadPos == 0 {
            RunSkips(a[1..], c, b, State(1, v, 0), out);
          } else if st.quadPos == 1 {
            RunSkips(a[1..], c, b, State(2, v % 16, 0), out + [st.leftChar * 4 + v / 16]);
          } else if st.quadPos == 2 {
            RunSkips(a[1..], c, b, State(3, v % 4, 0), out + [st.leftChar * 16 + v / 4]);
          } else {
            RunSkips(a[1..], c, b, Start, out + [st.leftChar * 64 + v]);
          }
      }
    }
  }

  /** An ASCII character outside the alphabet, such as a line break, is
    * discarded wherever it stands. */
  lemma DecodeSkips(a: string, c: char, b: string)
    requires c as int < 128 && c != '=' && Index(c).None?
    ensures Decode(a + [c] + b) == Decode(a + b)
  {
    var s1, s2 := a + [c] + b, a + b;
    if IsAscii(s2) {
      forall i | 0 <= i < |s1| ensures s1[i] as int < 128 {
        if i > |a| {
          assert s1[i] == s2[i - 1];
        } else if i < |a| {
          assert s1[i] == s2[i];
        }
      }
    } else {
      var i :| 0 <= i < |s2| && s2[i] as int >= 128;
      if i < |a| {
        assert s1[i] == s2[i];
      } else {
        assert s1[i + 1] == s2[i];
      }
    }
    RunSkips(a, c, b, Start, []);
  }

  /** An encoded payload followed by a line break decodes as without it. */
  lemma TrailingNewlineDecodes(b: seq<byte>)
    ensures Decode(Encode(b) + "\n") == Some(b)
  {
    DecodeEncode(b);
    DecodeSkips(Encode(b), '\n', "");
    assert Encode(b) + ['\n'] + "" == Encode(b) + "\n";
    assert Encode(b) + "" == Encode(b);
  }

  /** The loop stops at padding that completes a group, so characters after
    * it are not read. */
  lemma DataAfterPaddingIgnored(rest: string)
    ensures Decode("AQ==" + rest) == if IsAscii(rest) then Some([1]) else None
  {
    assert Group1(1) == "AQ==";
    RunGroup1(1, rest, []);
    var s := "AQ==" + rest;
    if IsAscii(rest) {
      assert forall i :: 0 <= i < |s| ==> s[i] == if i < 4 then "AQ=="[i] else rest[i - 4];
    } else {
      var i :| 0 <= i < |rest| && rest[i] as int >= 128;
      assert s[i + 4] == rest[i];
    }
  }

  /** Decoding the UTF-8 bytes of a text ignores its non-ASCII characters
    * wherever they stand. */
  lemma DecodeUtf8SkipsNonAscii(a: string, c: char, b: string)
    requires c as int >= 128
    ensures DecodeUtf8(a + [c] + b) == DecodeUtf8(a + b)
  {
    RunSkips(a, c, b, Start, []);
  }

  /** Decoding the UTF-8 bytes of an encoded payload gives the payload's
    * bytes back. */
  lemma DecodeUtf8Encode(b: seq<byte>)
    ensures DecodeUtf8(Encode(b)) == Some(b)
  {
    RunEncode(b, []);
    assert [] + b == b;
  }
}
