/**
 * The part of the uuid library the store depends on: a UUID is 16 bytes, and the map key
 * for a record is its canonical text form (8-4-4-4-12 lower-case hex digits). Generation and
 * parsing are not modelled here; callers receive generated ids and parse results as inputs.
 */
module Uuids {

  type Byte = x: int | 0 <= x < 256

  /** uuid.UUID is a [16]byte. */
  type Uuid = s: seq<Byte> | |s| == 16 witness [0, 0, 0, 0, 0, 0, 0, 0, 0, 0, 0, 0, 0, 0, 0, 0]

  /** The zero UUID, the ID of a zero-valued record. */
  const Nil: Uuid := [0, 0, 0, 0, 0, 0, 0, 0, 0, 0, 0, 0, 0, 0, 0, 0]

  function HexDigit(n: int): (c: char)
    requires 0 <= n < 16
    ensures '0' <= c <= '9' || 'a' <= c <= 'f'
  {
    if n < 10 then ('0' as int + n) as char else ('a' as int + n - 10) as char
  }

  /** The value of a lower-case hex digit (0 for any other character). */
  function HexValue(c: char): (n: int)
    ensures 0 <= n < 16
  {
    if '0' <= c <= '9' then c as int - '0' as int
    else if 'a' <= c <= 'f' then c as int - 'a' as int + 10
    else 0
  }

  lemma HexValueOfDigit(n: int)
    requires 0 <= n < 16
    ensures HexValue(HexDigit(n)) == n
  {
  }

  /** Two hex digits per byte, high nibble first. */
  function Hex(bs: seq<Byte>): (s: string)
    ensures |s| == 2 * |bs|
  {
    if bs == [] then "" else [HexDigit(bs[0] / 16), HexDigit(bs[0] % 16)] + Hex(bs[1..])
  }

  /** Reads hex digit pairs back into bytes. */
  function Unhex(s: string): (bs: seq<Byte>)
    ensures |bs| == |s| / 2
  {
    if |s| < 2 then [] else [16 * HexValue(s[0]) + HexValue(s[1])] + Unhex(s[2..])
  }

  /** Hex encoding loses nothing. */
  lemma {:induction false} UnhexHex(bs: seq<Byte>)
    ensures Unhex(Hex(bs)) == bs
  {
    if bs != [] {
      var s := Hex(bs);
      HexValueOfDigit(bs[0] / 16);
      HexValueOfDigit(bs[0] % 16);
      assert s[2..] == Hex(bs[1..]);
      UnhexHex(bs[1..]);
    }
  }

  /** uuid.UUID.String(): "xxxxxxxx-xxxx-xxxx-xxxx-xxxxxxxxxxxx". */
  function ToString(u: Uuid): (s: string)
    ensures |s| == 36
    ensures s[8] == '-' && s[13] == '-' && s[18] == '-' && s[23] == '-'
  {
    Hex(u[..4]) + "-" + Hex(u[4..6]) + "-" + Hex(u[6..8]) + "-" + Hex(u[8..10]) + "-" + Hex(u[10..])
  }

  /** Reads the canonical text form back (the inverse of ToString). */
  function FromString(s: string): (u: Uuid)
    requires |s| == 36
  {
    Unhex(s[0..8]) + Unhex(s[9..13]) + Unhex(s[14..18]) + Unhex(s[19..23]) + Unhex(s[24..])
  }

  /** The text form is never empty, so a test `u.String() == ""` never succeeds. */
  lemma ToStringNonEmpty(u: Uuid)
    ensures ToString(u) != ""
  {
  }

  /** The text form determines the UUID. */
  lemma FromStringToString(u: Uuid)
    ensures FromString(ToString(u)) == u
  {
    var s := ToString(u);
    var a, b, c, d, e := Hex(u[..4]), Hex(u[4..6]), Hex(u[6..8]), Hex(u[8..10]), Hex(u[10..]);
    assert s == a + "-" + b + "-" + c + "-" + d + "-" + e;
    assert s[0..8] == a;
    assert s[9..13] == b;
    assert s[14..18] == c;
    assert s[19..23] == d;
    assert s[24..] == e;
    UnhexHex(u[..4]);
    UnhexHex(u[4..6]);
    UnhexHex(u[6..8]);
    UnhexHex(u[8..10]);
    UnhexHex(u[10..]);
    assert u == u[..4] + u[4..6] + u[6..8] + u[8..10] + u[10..];
  }

  /** Distinct UUIDs have distinct keys: the map keyed by text is keyed by UUID. */
  lemma ToStringInjective(u: Uuid, v: Uuid)
    requires ToString(u) == ToString(v)
    ensures u == v
  {
    FromStringToString(u);
    FromStringToString(v);
  }
}
