/** Hardware revision of a blink(1) and how a session decides it when it opens
    the device (src/blink1.cpp:184-198, include/blink1.hpp:18-25). */
module Revision {

  /** `eBlinkBuild`: `eMk1 = 0`, then `eMk2`. */
  datatype Build = Mk1 | Mk2

  /** A character of the lookup string `"0123456789ABCDEF"`. */
  type HexChar = c: char | '0' <= c <= 'F' witness '0'

  const HexDigits: seq<HexChar> := "0123456789ABCDEF"

  /** `Init`'s classification as written: the character `hex[*s % 16]`,
      compared as a number with 2. Every character of the lookup string has a
      code of at least 48, so the comparison always holds: every session is
      classified `eMk2`, whatever its serial, and the `eMk1` branches are never
      taken. */
  function InitBuild(serial: seq<char>): (b: Build)
    ensures b == Mk2
  {
    // `*s`: the first wide character, or the terminator of an empty buffer.
    var first := if |serial| == 0 then 0 else serial[0] as int;
    var g := HexDigits[first % 16] as int;
    if g >= 2 then Mk2 else Mk1
  }

  /** The value of a hexadecimal digit, either case, or -1 for any other
      character. On the characters of the lookup string it is the position
      of the character there. */
  function HexValue(c: char): (v: int)
    ensures -1 <= v < 16
    ensures c in HexDigits ==> 0 <= v && HexDigits[v] == c
    ensures v == -1 <==> !('0' <= c <= '9' || 'A' <= c <= 'F' || 'a' <= c <= 'f')
  {
    if '0' <= c <= '9' then c as int - '0' as int
    else if 'A' <= c <= 'F' then c as int - 'A' as int + 10
    else if 'a' <= c <= 'f' then c as int - 'a' as int + 10
    else -1
  }

  /** Every character of the serial is a hexadecimal digit. */
  predicate HexSerial(s: seq<char>)
  {
    forall i :: 0 <= i < |s| ==> HexValue(s[i]) >= 0
  }

  function Pow16(k: nat): (p: nat)
    ensures p >= 1
  {
    if k == 0 then 1 else 16 * Pow16(k - 1)
  }

  /** The number a serial of hexadecimal digits spells, most significant digit
      first. It is below 16 to the power of its length. */
  function HexNumber(s: seq<char>): (n: nat)
    requires HexSerial(s)
    ensures n < Pow16(|s|)
    decreases |s|
  {
    if s == [] then 0
    else
      var rest := HexNumber(s[..|s| - 1]);
      rest * 16 + HexValue(s[|s| - 1])
  }

  /** The leading digit contributes its value times 16 to the power of the
      number of digits after it. */
  lemma {:induction false} HexNumberLeading(s: seq<char>)
    requires HexSerial(s) && |s| > 0
    ensures HexNumber(s) == HexValue(s[0]) * Pow16(|s| - 1) + HexNumber(s[1..])
    decreases |s|
  {
    if |s| > 1 {
      var t := s[..|s| - 1];
      var last := HexValue(s[|s| - 1]);
      HexNumberLeading(t);
      assert t[0] == s[0];
      assert t[1..] == s[1..][..|s| - 2];
      assert s[1..][|s| - 2] == s[|s| - 1];
      var d := HexValue(s[0]);
      var p := Pow16(|s| - 2);
      var r := HexNumber(t[1..]);
      assert HexNumber(t) == d * p + r;
      assert HexNumber(s[1..]) == r * 16 + last;
      assert Pow16(|s| - 1) == p * 16;
      Regroup(d, p, r, last);
    } else {
      assert s[..0] == [] && s[1..] == [];
    }
  }

  lemma Regroup(d: int, p: int, r: int, last: int)
    ensures (d * p + r) * 16 + last == d * (p * 16) + (r * 16 + last)
  {
  }

  /** The rule the comment above `Init` states, read off the leading
      hexadecimal digit of the serial: at least 2 is MK2. On an eight-digit
      serial this is exactly the numeric rule of the comment, MK1 up to
      0x1FFFFFFF and MK2 from 0x20000000. */
  function DocumentedBuild(serial: seq<char>): (b: Build)
    ensures |serial| == 8 && HexSerial(serial) ==> (b == Mk1 <==> HexNumber(serial) <= 0x1FFF_FFFF)
  {
    if |serial| == 8 && HexSerial(serial) then
      HexNumberLeading(serial);
      assert Pow16(7) == 0x1000_0000;
      if HexValue(serial[0]) >= 2 then Mk2 else Mk1
    else if |serial| > 0 && HexValue(serial[0]) >= 2 then Mk2
    else Mk1
  }

  /** The code and its comment disagree: an MK1 serial is classified MK2. */
  lemma InitIgnoresDocumentedRule()
    ensures DocumentedBuild("1FFFFFFF") == Mk1 && InitBuild("1FFFFFFF") == Mk2
    ensures DocumentedBuild("20000001") == Mk2 && InitBuild("20000001") == Mk2
    ensures exists s :: InitBuild(s) != DocumentedBuild(s)
  {
    assert InitBuild("1FFFFFFF") != DocumentedBuild("1FFFFFFF");
  }
}
