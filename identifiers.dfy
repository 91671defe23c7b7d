/**
 * Foundation's `UUID` as the app uses it: a 16-byte value, its `uuidString`
 * (upper-case hexadecimal in 8-4-4-4-12 groups) and the failable
 * `UUID(uuidString:)`, which accepts exactly 36 characters with dashes at
 * offsets 8, 13, 18 and 23 and hexadecimal digits of either case elsewhere.
 */
module Identifiers {
  import opened Wrappers

  newtype Byte = b: int | 0 <= b < 256

  type Uuid = s: seq<Byte> | |s| == 16 witness seq(16, _ => 0)

  predicate IsUpperHexChar(c: char) {
    '0' <= c <= '9' || 'A' <= c <= 'F'
  }

  /** The upper-case digit for a nibble. */
  function HexChar(n: int): (c: char)
    requires 0 <= n < 16
    ensures IsUpperHexChar(c)
  {
    if n < 10 then ('0' as int + n) as char else ('A' as int + n - 10) as char
  }

  /** The value of a hexadecimal digit of either case, or None for any other character. */
  function HexValue(c: char): (r: Option<int>)
    ensures r.Some? ==> 0 <= r.value < 16
    ensures IsUpperHexChar(c) ==> r.Some?
  {
    if '0' <= c <= '9' then Some(c as int - '0' as int)
    else if 'A' <= c <= 'F' then Some(c as int - 'A' as int + 10)
    else if 'a' <= c <= 'f' then Some(c as int - 'a' as int + 10)
    else None
  }

  predicate IsHexChar(c: char) {
    HexValue(c).Some?
  }

  /** Two upper-case digits per byte, high nibble first. */
  function Hex(bs: seq<Byte>): (s: string)
    ensures |s| == 2 * |bs|
    ensures forall i :: 0 <= i < |s| ==> IsUpperHexChar(s[i])
  {
    if bs == [] then ""
    else [HexChar(bs[0] as int / 16), HexChar(bs[0] as int % 16)] + Hex(bs[1..])
  }

  /** Decodes pairs of hexadecimal digits; None unless every character is a digit and there is an even number of them. */
  function UnHex(s: string): (r: Option<seq<Byte>>)
    ensures r.Some? <==> |s| % 2 == 0 && forall i :: 0 <= i < |s| ==> IsHexChar(s[i])
    ensures r.Some? ==> |r.value| == |s| / 2
  {
    if s == "" then Some([])
    else if |s| == 1 then None
    else
      var hi, lo, rest := HexValue(s[0]), HexValue(s[1]), UnHex(s[2..]);
      assert forall i :: 2 <= i < |s| ==> s[i] == s[2..][i - 2];
      if hi.Some? && lo.Some? && rest.Some? then Some([(hi.value * 16 + lo.value) as Byte] + rest.value)
      else None
  }

  lemma {:induction false} UnHexHex(bs: seq<Byte>)
    ensures UnHex(Hex(bs)) == Some(bs)
  {
    if bs != [] {
      var b := bs[0] as int;
      assert Hex(bs)[2..] == Hex(bs[1..]);
      UnHexHex(bs[1..]);
      assert HexValue(HexChar(b / 16)) == Some(b / 16);
      assert HexValue(HexChar(b % 16)) == Some(b % 16);
      assert bs == [bs[0]] + bs[1..];
    }
  }

  /** `uuid.uuidString`. */
  function UuidString(u: Uuid): (s: string)
    ensures |s| == 36
    ensures s[8] == s[13] == s[18] == s[23] == '-'
    ensures forall i :: 0 <= i < 36 && !IsDashOffset(i) ==> IsUpperHexChar(s[i])
  {
    Hex(u[..4]) + "-" + Hex(u[4..6]) + "-" + Hex(u[6..8]) + "-" + Hex(u[8..10]) + "-" + Hex(u[10..])
  }

  predicate IsDashOffset(i: int) {
    i == 8 || i == 13 || i == 18 || i == 23
  }

  /** `UUID(uuidString: s)`. */
  function ParseUuid(s: string): (r: Option<Uuid>)
    ensures r.Some? <==>
      |s| == 36 && forall i :: 0 <= i < 36 ==> if IsDashOffset(i) then s[i] == '-' else IsHexChar(s[i])
  {
    if |s| != 36 || s[8] != '-' || s[13] != '-' || s[18] != '-' || s[23] != '-' then None
    else
      var groups := [s[..8], s[9..13], s[14..18], s[19..23], s[24..]];
      var parts := [UnHex(groups[0]), UnHex(groups[1]), UnHex(groups[2]), UnHex(groups[3]), UnHex(groups[4])];
      if parts[0].Some? && parts[1].Some? && parts[2].Some? && parts[3].Some? && parts[4].Some? then
        assert forall i :: 0 <= i < 36 && !IsDashOffset(i) ==> IsHexChar(s[i]) by {
          forall i | 0 <= i < 36 && !IsDashOffset(i) ensures IsHexChar(s[i]) {
            if i < 8 { assert s[i] == groups[0][i]; }
            else if i < 13 { assert s[i] == groups[1][i - 9]; }
            else if i < 18 { assert s[i] == groups[2][i - 14]; }
            else if i < 23 { assert s[i] == groups[3][i - 19]; }
            else { assert s[i] == groups[4][i - 24]; }
          }
        }
        Some(parts[0].value + parts[1].value + parts[2].value + parts[3].value + parts[4].value)
      else
        assert exists i :: 0 <= i < 36 && !IsDashOffset(i) && !IsHexChar(s[i]) by {
          if parts[0].None? {
            var k :| 0 <= k < 8 && !IsHexChar(groups[0][k]);
            assert s[k] == groups[0][k];
          } else if parts[1].None? {
            var k :| 0 <= k < 4 && !IsHexChar(groups[1][k]);
            assert s[k + 9] == groups[1][k];
          } else if parts[2].None? {
            var k :| 0 <= k < 4 && !IsHexChar(groups[2][k]);
            assert s[k + 14] == groups[2][k];
          } else if parts[3].None? {
            var k :| 0 <= k < 4 && !IsHexChar(groups[3][k]);
            assert s[k + 19] == groups[3][k];
          } else {
            var k :| 0 <= k < 12 && !IsHexChar(groups[4][k]);
            assert s[k + 24] == groups[4][k];
          }
        }
        None
  }

  /** `UUID(uuidString: u.uuidString) == u`. */
  lemma UuidRoundTrip(u: Uuid)
    ensures ParseUuid(UuidString(u)) == Some(u)
  {
    var s := UuidString(u);
    assert s[..8] == Hex(u[..4]);
    assert s[9..13] == Hex(u[4..6]);
    assert s[14..18] == Hex(u[6..8]);
    assert s[19..23] == Hex(u[8..10]);
    assert s[24..] == Hex(u[10..]);
    UnHexHex(u[..4]);
    UnHexHex(u[4..6]);
    UnHexHex(u[6..8]);
    UnHexHex(u[8..10]);
    UnHexHex(u[10..]);
    assert u == u[..4] + u[4..6] + u[6..8] + u[8..10] + u[10..];
  }

  /** Distinct identifiers have distinct strings. */
  lemma UuidStringInjective(u: Uuid, v: Uuid)
    requires UuidString(u) == UuidString(v)
    ensures u == v
  {
    UuidRoundTrip(u);
    UuidRoundTrip(v);
  }
}
