/** UUIDs as sixteen bytes, and their hyphenated text. */
module Uuids {
  import opened Text

  type Byte = b: int | 0 <= b < 256

  type Uuid = u: seq<Byte> | |u| == 16 witness seq(16, _ => 0)

  const NIL: Uuid := [0, 0, 0, 0, 0, 0, 0, 0, 0, 0, 0, 0, 0, 0, 0, 0]

  function Hex(bytes: seq<Byte>): (r: string)
    ensures |r| == 2 * |bytes|
    ensures forall c :: c in r ==> IsHex(c)
  {
    if bytes == [] then ""
    else [LowerHexDigit(bytes[0] / 16), LowerHexDigit(bytes[0] % 16)] + Hex(bytes[1..])
  }

  lemma {:induction false} HexInjective(a: seq<Byte>, b: seq<Byte>)
    requires Hex(a) == Hex(b)
    ensures a == b
  {
    assert |a| == |b|;
    if a != [] {
      var ra, rb := Hex(a), Hex(b);
      assert ra[0] == rb[0] && ra[1] == rb[1];
      assert HexValue(ra[0]) == a[0] / 16 && HexValue(ra[1]) == a[0] % 16;
      assert HexValue(rb[0]) == b[0] / 16 && HexValue(rb[1]) == b[0] % 16;
      assert ra[2..] == Hex(a[1..]) && rb[2..] == Hex(b[1..]);
      HexInjective(a[1..], b[1..]);
      assert a == [a[0]] + a[1..] && b == [b[0]] + b[1..];
    }
  }

  /** `Uuid::to_string`: lower-case hexadecimal in groups of 8, 4, 4, 4 and 12. */
  function UuidText(u: Uuid): (r: string)
    ensures |r| == 36
    ensures forall c :: c in r ==> IsHex(c) || c == '-'
  {
    var h := Hex(u);
    h[..8] + "-" + h[8..12] + "-" + h[12..16] + "-" + h[16..20] + "-" + h[20..]
  }

  lemma UuidTextInjective(a: Uuid, b: Uuid)
    requires UuidText(a) == UuidText(b)
    ensures a == b
  {
    var ra, rb := UuidText(a), UuidText(b);
    var ha, hb := Hex(a), Hex(b);
    assert ra[..8] == ha[..8] && ra[9..13] == ha[8..12] && ra[14..18] == ha[12..16]
        && ra[19..23] == ha[16..20] && ra[24..] == ha[20..];
    assert rb[..8] == hb[..8] && rb[9..13] == hb[8..12] && rb[14..18] == hb[12..16]
        && rb[19..23] == hb[16..20] && rb[24..] == hb[20..];
    assert ha == ha[..8] + ha[8..12] + ha[12..16] + ha[16..20] + ha[20..];
    assert hb == hb[..8] + hb[8..12] + hb[12..16] + hb[16..20] + hb[20..];
    HexInjective(a, b);
  }
}
