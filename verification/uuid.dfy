/**
 A 128-bit request identifier and its canonical text form
 (8-4-4-4-12 lower-case hex digits separated by hyphens), as produced by the
 uuid package's String method and read back by its FromString function.
 */
module Uuid {
  import opened Wrappers
  import opened Text

  type UUID = s: seq<byte> | |s| == 16 witness [0, 0, 0, 0, 0, 0, 0, 0, 0, 0, 0, 0, 0, 0, 0, 0]

  /** uuid.UUID{}, the zero identifier. */
  const Nil: UUID := [0, 0, 0, 0, 0, 0, 0, 0, 0, 0, 0, 0, 0, 0, 0, 0]

  /** The lower-case hex digit for n. */
  function HexChar(n: nat): char
    requires n < 16
  {
    if n < 10 then ('0' as int + n) as char else ('a' as int + n - 10) as char
  }

  /** hex.Encode: two lower-case digits per byte, high nibble first. */
  function Hex(bs: seq<byte>): (s: string)
    ensures |s| == 2 * |bs|
  {
    if bs == [] then "" else [HexChar(bs[0] / 16), HexChar(bs[0] % 16)] + Hex(bs[1..])
  }

  /** The value of one hex digit; hex.Decode accepts both letter cases. */
  function Nibble(c: char): Option<nat>
  {
    if '0' <= c <= '9' then Some(c as int - '0' as int)
    else if 'a' <= c <= 'f' then Some(c as int - 'a' as int + 10)
    else if 'A' <= c <= 'F' then Some(c as int - 'A' as int + 10)
    else None
  }

  lemma NibbleRange(c: char)
    ensures Nibble(c).Some? ==> Nibble(c).value < 16
  {
  }

  lemma NibbleHexChar(n: nat)
    requires n < 16
    ensures Nibble(HexChar(n)) == Some(n)
  {
  }

  /** hex.Decode: None on an odd length or a character that is not a hex digit. */
  function Unhex(s: string): (r: Option<seq<byte>>)
    ensures r.Some? ==> 2 * |r.value| == |s|
  {
    if s == [] then Some([])
    else if |s| == 1 then None
    else
      match (Nibble(s[0]), Nibble(s[1]), Unhex(s[2..]))
      case (Some(hi), Some(lo), Some(rest)) =>
        NibbleRange(s[0]);
        NibbleRange(s[1]);
        Some([hi * 16 + lo] + rest)
      case _ => None
  }

  lemma {:induction false} UnhexHex(bs: seq<byte>)
    ensures Unhex(Hex(bs)) == Some(bs)
  {
    if bs != [] {
      var s := Hex(bs);
      assert s[2..] == Hex(bs[1..]);
      UnhexHex(bs[1..]);
      NibbleHexChar(bs[0] / 16);
      NibbleHexChar(bs[0] % 16);
      assert [bs[0]] + bs[1..] == bs;
    }
  }

  /** u.String(): the canonical hyphenated form. */
  function Format(u: UUID): (s: string)
    ensures |s| == 36
    ensures s[8] == '-' && s[13] == '-' && s[18] == '-' && s[23] == '-'
  {
    Hex(u[..4]) + "-" + Hex(u[4..6]) + "-" + Hex(u[6..8]) + "-" + Hex(u[8..10]) + "-" + Hex(u[10..])
  }

  /** uuid.FromString on a 36-character canonical text; every other length is rejected. */
  function Parse(s: string): (r: Option<UUID>)
    ensures r.Some? ==> |s| == 36 && s[8] == '-' && s[13] == '-' && s[18] == '-' && s[23] == '-'
  {
    if |s| != 36 || s[8] != '-' || s[13] != '-' || s[18] != '-' || s[23] != '-' then None
    else
      match (Unhex(s[..8]), Unhex(s[9..13]), Unhex(s[14..18]), Unhex(s[19..23]), Unhex(s[24..]))
      case (Some(a), Some(b), Some(c), Some(d), Some(e)) => Some(a + b + c + d + e)
      case _ => None
  }

  /** The five digit groups sit between the hyphens of the canonical form. */
  lemma FormatGroups(u: UUID)
    ensures var s := Format(u);
            s[..8] == Hex(u[..4]) && s[9..13] == Hex(u[4..6]) && s[14..18] == Hex(u[6..8])
            && s[19..23] == Hex(u[8..10]) && s[24..] == Hex(u[10..])
  {
    var h0, h1, h2, h3, h4 := Hex(u[..4]), Hex(u[4..6]), Hex(u[6..8]), Hex(u[8..10]), Hex(u[10..]);
    var s := Format(u);
    assert s == h0 + "-" + h1 + "-" + h2 + "-" + h3 + "-" + h4;
    assert forall i :: 0 <= i < 8 ==> s[i] == h0[i];
    assert forall i :: 0 <= i < 4 ==> s[9 + i] == h1[i];
    assert forall i :: 0 <= i < 4 ==> s[14 + i] == h2[i];
    assert forall i :: 0 <= i < 4 ==> s[19 + i] == h3[i];
    assert forall i :: 0 <= i < 12 ==> s[24 + i] == h4[i];
  }

  /** Reading back the canonical form gives the identifier that was formatted. */
  lemma ParseFormat(u: UUID)
    ensures Parse(Format(u)) == Some(u)
  {
    FormatGroups(u);
    UnhexHex(u[..4]);
    UnhexHex(u[4..6]);
    UnhexHex(u[6..8]);
    UnhexHex(u[8..10]);
    UnhexHex(u[10..]);
    GroupsJoin(u);
  }

  /** The five byte groups put back together are the identifier. */
  lemma GroupsJoin(u: UUID)
    ensures u[..4] + u[4..6] + u[6..8] + u[8..10] + u[10..] == u
  {
    assert u[..4] + u[4..6] == u[..6];
    assert u[..6] + u[6..8] == u[..8];
    assert u[..8] + u[8..10] == u[..10];
    assert u[..10] + u[10..] == u;
  }

  /** Distinct identifiers have distinct text forms. */
  lemma FormatInjective(u: UUID, v: UUID)
    requires Format(u) == Format(v)
    ensures u == v
  {
    ParseFormat(u);
    ParseFormat(v);
  }
}
