/**
 A recursive-descent parser for sections 2 to 7 of RFC 8259, restricted to integer numbers. It is written from
 the grammar, independently of the printer. Later duplicates of an object key win.
 */
module JsonParser {
  import opened Wrappers
  import opened Text
  import opened Json

  datatype Parsed<+T> = Parsed(value: T, rest: string)

  /** Section 2: insignificant whitespace. */
  predicate IsSpace(c: char) {
    c == ' ' || c == '\t' || c == '\n' || c == '\r'
  }

  function SkipSpace(s: string): (r: string)
    ensures |r| <= |s|
    ensures s != [] && !IsSpace(s[0]) ==> r == s
  {
    if s != [] && IsSpace(s[0]) then SkipSpace(s[1..]) else s
  }

  function HexFour(s: string): Option<nat> {
    if |s| >= 4 && IsHex(s[0]) && IsHex(s[1]) && IsHex(s[2]) && IsHex(s[3])
    then Some(HexValue(s[0]) * 0x1000 + HexValue(s[1]) * 0x100 + HexValue(s[2]) * 0x10 + HexValue(s[3]))
    else None
  }

  /** Section 7: the four hexadecimal digits after `\u`, with a surrogate pair read as one character. */
  function ParseUnicodeEscape(s: string): (r: Option<Parsed<char>>)
    ensures r.Some? ==> |r.value.rest| < |s|
  {
    var code :- HexFour(s);
    if code < 0xD800 || 0xE000 <= code <= 0xFFFF then Some(Parsed(code as char, s[4..]))
    else if code <= 0xDBFF && StartsWith(s[4..], "\\u") then
      var low :- HexFour(s[6..]);
      if 0xDC00 <= low <= 0xDFFF
      then Some(Parsed((0x1_0000 + (code - 0xD800) * 0x400 + (low - 0xDC00)) as char, s[10..]))
      else None
    else None
  }

  function ParseChar(s: string): (r: Option<Parsed<char>>)
    requires s != []
    ensures r.Some? ==> |r.value.rest| < |s|
  {
    if s[0] < ' ' then None
    else if s[0] != '\\' then Some(Parsed(s[0], s[1..]))
    else if |s| == 1 then None
    else
      match s[1]
      case '"' => Some(Parsed('"', s[2..]))
      case '\\' => Some(Parsed('\\', s[2..]))
      case '/' => Some(Parsed('/', s[2..]))
      case 'b' => Some(Parsed(8 as char, s[2..]))
      case 'f' => Some(Parsed(12 as char, s[2..]))
      case 'n' => Some(Parsed('\n', s[2..]))
      case 'r' => Some(Parsed('\r', s[2..]))
      case 't' => Some(Parsed('\t', s[2..]))
      case 'u' => ParseUnicodeEscape(s[2..])
      case _ => None
  }

  /** The characters of a string literal, after its opening quote. */
  function ParseChars(s: string): (r: Option<Parsed<string>>)
    ensures r.Some? ==> |r.value.rest| < |s|
  {
    if s == [] then None
    else if s[0] == '"' then Some(Parsed("", s[1..]))
    else
      var one :- ParseChar(s);
      var more :- ParseChars(one.rest);
      Some(Parsed([one.value] + more.value, more.rest))
  }

  /** Section 6 without a fraction or exponent part; `-0` is not an integer. */
  function ParseNumber(s: string): (r: Option<Parsed<Json>>)
    requires s != []
    ensures r.Some? ==> |r.value.rest| < |s|
  {
    var negative := s[0] == '-';
    var t := if negative then s[1..] else s;
    var n := LeadingDigits(t);
    var rest := t[n..];
    if n == 0 || (n > 1 && t[0] == '0') || (rest != [] && rest[0] in ".eE") then None
    else
      var value: int := DigitsValue(t[..n]);
      if negative then (if value == 0 then None else Some(Parsed(Number(-value), rest)))
      else Some(Parsed(Number(value), rest))
  }

  /** Section 3: a value, after optional whitespace. */
  function ParseValue(s: string): (r: Option<Parsed<Json>>)
    ensures r.Some? ==> |r.value.rest| < |s|
    decreases |s|, 0
  {
    var t := SkipSpace(s);
    if t == [] then None
    else if StartsWith(t, "null") then Some(Parsed(Null, t[4..]))
    else if StartsWith(t, "true") then Some(Parsed(Bool(true), t[4..]))
    else if StartsWith(t, "false") then Some(Parsed(Bool(false), t[5..]))
    else if t[0] == '"' then
      var text :- ParseChars(t[1..]);
      Some(Parsed(String(text.value), text.rest))
    else if t[0] == '[' then
      var u := SkipSpace(t[1..]);
      if u != [] && u[0] == ']' then Some(Parsed(Array([]), u[1..]))
      else
        var items :- ParseItems(u);
        Some(Parsed(Array(items.value), items.rest))
    else if t[0] == '{' then
      var u := SkipSpace(t[1..]);
      if u != [] && u[0] == '}' then Some(Parsed(Object(map[]), u[1..]))
      else
        var members :- ParseMembers(u);
        Some(Parsed(Object(members.value), members.rest))
    else ParseNumber(t)
  }

  /** Section 5: one or more values separated by commas, then `]`. */
  function ParseItems(s: string): (r: Option<Parsed<seq<Json>>>)
    ensures r.Some? ==> |r.value.rest| < |s|
    decreases |s|, 1
  {
    var first :- ParseValue(s);
    var t := SkipSpace(first.rest);
    if t == [] then None
    else if t[0] == ']' then Some(Parsed([first.value], t[1..]))
    else if t[0] == ',' then
      var more :- ParseItems(t[1..]);
      Some(Parsed([first.value] + more.value, more.rest))
    else None
  }

  /** Section 4: a member, that is a string, a colon and a value. */
  function ParseMember(s: string): (r: Option<Parsed<(string, Json)>>)
    ensures r.Some? ==> |r.value.rest| < |s|
    decreases |s|, 1
  {
    var t := SkipSpace(s);
    if t == [] || t[0] != '"' then None
    else
      var key :- ParseChars(t[1..]);
      var u := SkipSpace(key.rest);
      if u == [] || u[0] != ':' then None
      else
        var value :- ParseValue(u[1..]);
        Some(Parsed((key.value, value.value), value.rest))
  }

  /** Section 4: one or more members separated by commas, then `}`. */
  function ParseMembers(s: string): (r: Option<Parsed<map<string, Json>>>)
    ensures r.Some? ==> |r.value.rest| < |s|
    decreases |s|, 2
  {
    var first :- ParseMember(s);
    var t := SkipSpace(first.rest);
    if t == [] then None
    else if t[0] == '}' then Some(Parsed(map[first.value.0 := first.value.1], t[1..]))
    else if t[0] == ',' then
      var more :- ParseMembers(t[1..]);
      Some(Parsed(map[first.value.0 := first.value.1] + more.value, more.rest))
    else None
  }

  /** A whole document: one value surrounded by whitespace. */
  function Parse(s: string): Option<Json> {
    var whole :- ParseValue(s);
    if SkipSpace(whole.rest) == [] then Some(whole.value) else None
  }
}
