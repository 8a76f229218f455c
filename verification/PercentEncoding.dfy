/** UTF-8 and percent-encoding of path and query segments, with the decoders that undo them. */
module PercentEncoding {
  import opened Wrappers
  import opened Text
  import opened Uuids

  // ---------------------------------------------------------------- UTF-8

  function EncodeChar(c: char): (r: seq<Byte>)
    ensures r != []
  {
    var n := c as int;
    if n < 0x80 then [n]
    else if n < 0x800 then [0xC0 + n / 64, 0x80 + n % 64]
    else if n < 0x1_0000 then [0xE0 + n / 4096, 0x80 + n / 64 % 64, 0x80 + n % 64]
    else [0xF0 + n / 262144, 0x80 + n / 4096 % 64, 0x80 + n / 64 % 64, 0x80 + n % 64]
  }

  /** `str::bytes`. */
  function Utf8(s: string): seq<Byte> {
    if s == [] then [] else EncodeChar(s[0]) + Utf8(s[1..])
  }

  predicate Follows(b: Byte) {
    0x80 <= b < 0xC0
  }

  /** The six bits a continuation byte carries. */
  function Low(b: Byte): nat
    requires Follows(b)
  {
    var n: int := b;
    n - 0x80
  }

  function CharOf(code: nat): Option<char> {
    if code < 0xD800 || 0xE000 <= code < 0x11_0000 then Some(code as char) else None
  }

  /** The first character of a UTF-8 text and the number of bytes it takes. */
  function DecodeChar(b: seq<Byte>): (r: Option<(char, nat)>)
    ensures r.Some? ==> 0 < r.value.1 <= |b|
  {
    if b == [] then None
    else
      var n: int := b[0];
      if n < 0x80 then Some((n as char, 1))
      else if 0xC0 <= n < 0xE0 && |b| >= 2 && Follows(b[1]) then
        var c :- CharOf((n - 0xC0) * 64 + Low(b[1]));
        Some((c, 2))
      else if 0xE0 <= n < 0xF0 && |b| >= 3 && Follows(b[1]) && Follows(b[2]) then
        var c :- CharOf((n - 0xE0) * 4096 + Low(b[1]) * 64 + Low(b[2]));
        Some((c, 3))
      else if 0xF0 <= n && |b| >= 4 && Follows(b[1]) && Follows(b[2]) && Follows(b[3]) then
        var c :- CharOf((n - 0xF0) * 262144 + Low(b[1]) * 4096 + Low(b[2]) * 64 + Low(b[3]));
        Some((c, 4))
      else None
  }

  function Utf8Decode(b: seq<Byte>): Option<string>
    decreases |b|
  {
    if b == [] then Some("")
    else
      var first :- DecodeChar(b);
      var rest :- Utf8Decode(b[first.1..]);
      Some([first.0] + rest)
  }

  lemma DecodeTwo(c: char, rest: seq<Byte>)
    requires 0x80 <= c as int < 0x800
    ensures DecodeChar(EncodeChar(c) + rest) == Some((c, 2))
  {
    var n, b := c as int, EncodeChar(c) + rest;
    assert b[0] == 0xC0 + n / 64 && b[1] == 0x80 + n % 64;
    assert (b[0] as int - 0xC0) * 64 + Low(b[1]) == n;
  }

  lemma DecodeThree(c: char, rest: seq<Byte>)
    requires 0x800 <= c as int < 0x1_0000
    ensures DecodeChar(EncodeChar(c) + rest) == Some((c, 3))
  {
    var n, b := c as int, EncodeChar(c) + rest;
    assert n == n / 4096 * 4096 + n / 64 % 64 * 64 + n % 64;
    assert b[0] == 0xE0 + n / 4096 && b[1] == 0x80 + n / 64 % 64 && b[2] == 0x80 + n % 64;
    assert (b[0] as int - 0xE0) * 4096 + Low(b[1]) * 64 + Low(b[2]) == n;
  }

  lemma DecodeFour(c: char, rest: seq<Byte>)
    requires 0x1_0000 <= c as int
    ensures DecodeChar(EncodeChar(c) + rest) == Some((c, 4))
  {
    var n, b := c as int, EncodeChar(c) + rest;
    assert n == n / 262144 * 262144 + n / 4096 % 64 * 4096 + n / 64 % 64 * 64 + n % 64;
    assert b[0] == 0xF0 + n / 262144 && b[1] == 0x80 + n / 4096 % 64;
    assert b[2] == 0x80 + n / 64 % 64 && b[3] == 0x80 + n % 64;
    assert (b[0] as int - 0xF0) * 262144 + Low(b[1]) * 4096 + Low(b[2]) * 64 + Low(b[3]) == n;
  }

  lemma DecodeEncodedChar(c: char, rest: seq<Byte>)
    ensures DecodeChar(EncodeChar(c) + rest) == Some((c, |EncodeChar(c)|))
  {
    if c as int >= 0x1_0000 {
      DecodeFour(c, rest);
    } else if c as int >= 0x800 {
      DecodeThree(c, rest);
    } else if c as int >= 0x80 {
      DecodeTwo(c, rest);
    }
  }

  lemma {:induction false} Utf8RoundTrip(s: string)
    ensures Utf8Decode(Utf8(s)) == Some(s)
  {
    if s != [] {
      DecodeEncodedChar(s[0], Utf8(s[1..]));
      assert Utf8(s)[|EncodeChar(s[0])|..] == Utf8(s[1..]);
      Utf8RoundTrip(s[1..]);
      assert s == [s[0]] + s[1..];
    }
  }

  /** The length Rust gives a string is the number of its UTF-8 bytes. */
  lemma {:induction false} Utf8LengthIsBytes(s: string)
    ensures Utf8Length(s) == |Utf8(s)|
  {
    if s != [] {
      Utf8LengthIsBytes(s[1..]);
    }
  }

  // ---------------------------------------------------------------- percent-encoding

  const HEX_DIGITS := "0123456789ABCDEF"

  /** Section 2.3 of RFC 3986. */
  predicate Unreserved(b: Byte) {
    'A' as int <= b <= 'Z' as int || 'a' as int <= b <= 'z' as int || '0' as int <= b <= '9' as int
    || b == '-' as int || b == '.' as int || b == '_' as int || b == '~' as int
  }

  function EncodeByte(b: Byte): string {
    if Unreserved(b) then [b as char] else ['%', UpperHexDigit(b / 16), UpperHexDigit(b % 16)]
  }

  function Encoded(bytes: seq<Byte>): string {
    if bytes == [] then "" else EncodeByte(bytes[0]) + Encoded(bytes[1..])
  }

  /** Section 2.1 of RFC 3986: `%` and two hexadecimal digits stand for one byte. */
  function PercentDecode(s: string): Option<seq<Byte>> {
    if s == [] then Some([])
    else if s[0] == '%' then
      if |s| >= 3 && IsHex(s[1]) && IsHex(s[2]) then
        var rest :- PercentDecode(s[3..]);
        Some([HexValue(s[1]) * 16 + HexValue(s[2])] + rest)
      else None
    else if s[0] as int < 0x80 then
      var rest :- PercentDecode(s[1..]);
      Some([s[0] as int] + rest)
    else None
  }

  /** Characters an encoded segment may hold; none of them separates path or query parts. */
  predicate Safe(c: char) {
    c == '%' || (c as int < 0x80 && Unreserved(c as int))
  }

  lemma {:induction false} EncodedAppend(a: seq<Byte>, b: Byte)
    ensures Encoded(a + [b]) == Encoded(a) + EncodeByte(b)
  {
    if a == [] {
      assert [b][1..] == [];
      assert a + [b] == [b];
    } else {
      EncodedAppend(a[1..], b);
      assert (a + [b])[1..] == a[1..] + [b];
    }
  }

  /** Decoding undoes encoding on every byte string. */
  lemma {:induction false} DecodeEncoded(bytes: seq<Byte>)
    ensures PercentDecode(Encoded(bytes)) == Some(bytes)
  {
    if bytes != [] {
      DecodeEncoded(bytes[1..]);
      var s := Encoded(bytes);
      assert s[|EncodeByte(bytes[0])|..] == Encoded(bytes[1..]);
      assert bytes == [bytes[0]] + bytes[1..];
    }
  }

  lemma {:induction false} EncodedSafe(bytes: seq<Byte>)
    ensures forall c :: c in Encoded(bytes) ==> Safe(c)
  {
    if bytes != [] {
      EncodedSafe(bytes[1..]);
    }
  }

  /** Unreserved bytes ride through. */
  lemma {:induction false} EncodedUnreserved(s: string)
    requires forall c :: c in s ==> c as int < 0x80 && Unreserved(c as int)
    ensures Encoded(Utf8(s)) == s
  {
    if s != [] {
      assert s[0] in s;
      assert forall c :: c in s[1..] ==> c in s;
      EncodedUnreserved(s[1..]);
      assert Utf8(s)[1..] == Utf8(s[1..]);
      assert s == [s[0]] + s[1..];
    }
  }

  /** One byte at a time: letters, digits and four marks are kept, every other byte is `%` and two upper-case digits. */
  lemma EncodedLiterally(b: Byte)
    ensures var c := b as char;
            var kept := c in "ABCDEFGHIJKLMNOPQRSTUVWXYZ" || c in "abcdefghijklmnopqrstuvwxyz" || c in "0123456789-._~";
            Encoded([b]) == if kept then [c] else "%" + [HEX_DIGITS[b / 16], HEX_DIGITS[b % 16]]
  {
    hide Unreserved, UpperHexDigit;
    UnreservedLiterally(b);
    UpperLiterally(b / 16);
    UpperLiterally(b % 16);
    assert [b][1..] == [];
  }

  lemma UpperLiterally(d: nat)
    requires d < 16
    ensures UpperHexDigit(d) == HEX_DIGITS[d]
  {
    assert HEX_DIGITS[d] == if d < 10 then (d + 48) as char else (d + 55) as char;
  }

  lemma UnreservedLiterally(b: Byte)
    ensures var c := b as char;
            Unreserved(b) <==>
              c in "ABCDEFGHIJKLMNOPQRSTUVWXYZ" || c in "abcdefghijklmnopqrstuvwxyz" || c in "0123456789-._~"
  {
    UpperLetters(b);
    LowerLetters(b);
    DigitsAndMarks(b);
  }

  lemma UpperLetters(b: Byte)
    ensures 65 <= b <= 90 <==> b as char in "ABCDEFGHIJKLMNOPQRSTUVWXYZ"
  {
    var letters := "ABCDEFGHIJKLMNOPQRSTUVWXYZ";
    assert forall k :: 0 <= k < 26 ==> letters[k] == (65 + k) as char;
    if 65 <= b <= 90 {
      assert letters[b - 65] == b as char;
    }
  }

  lemma LowerLetters(b: Byte)
    ensures 97 <= b <= 122 <==> b as char in "abcdefghijklmnopqrstuvwxyz"
  {
    var letters := "abcdefghijklmnopqrstuvwxyz";
    assert forall k :: 0 <= k < 26 ==> letters[k] == (97 + k) as char;
    if 97 <= b <= 122 {
      assert letters[b - 97] == b as char;
    }
  }

  lemma DigitsAndMarks(b: Byte)
    ensures 48 <= b <= 57 || b == 45 || b == 46 || b == 95 || b == 126 <==> b as char in "0123456789-._~"
  {
    var marks := "0123456789-._~";
    assert forall k :: 0 <= k < 10 ==> marks[k] == (48 + k) as char;
    if 48 <= b <= 57 {
      assert marks[b - 48] == b as char;
    }
    assert marks[10] == 45 as char && marks[11] == 46 as char && marks[12] == 95 as char && marks[13] == 126 as char;
  }

  /** The text an encoded segment stands for. */
  function DecodeSegment(s: string): Option<string> {
    var bytes :- PercentDecode(s);
    Utf8Decode(bytes)
  }

  /** `percent_encode`. */
  function Segment(s: string): (r: string)
    ensures forall c :: c in r ==> Safe(c)
    ensures DecodeSegment(r) == Some(s)
  {
    EncodedSafe(Utf8(s));
    DecodeEncoded(Utf8(s));
    Utf8RoundTrip(s);
    Encoded(Utf8(s))
  }

  /** `percent_encode` as it runs: one pass over the bytes. */
  method PercentEncode(s: string) returns (out: string)
    ensures out == Segment(s)
    ensures DecodeSegment(out) == Some(s)
  {
    var bytes := Utf8(s);
    out := "";
    for i := 0 to |bytes|
      invariant out == Encoded(bytes[..i])
    {
      var b := bytes[i];
      if Unreserved(b) {
        out := out + [b as char];
      } else {
        out := out + ['%', UpperHexDigit(b / 16), UpperHexDigit(b % 16)];
      }
      EncodedAppend(bytes[..i], b);
      assert bytes[..i + 1] == bytes[..i] + [b];
    }
    assert bytes[..|bytes|] == bytes;
  }
}
