/**
 JSON values and their texts. An object is a map, as `serde_json::Map` is. A document lists the members of each
 object in an order of its own, which equal objects need not share.
 */
module Json {
  import opened Ordering
  import opened Text

  /** Numbers are integers. */
  datatype Json =
    | Null
    | Bool(b: bool)
    | Number(n: int)
    | String(s: string)
    | Array(items: seq<Json>)
    | Object(members: map<string, Json>)

  /** A value as it is written down: each object is a list of members. */
  datatype Document =
    | NullText
    | BoolText(b: bool)
    | NumberText(n: int)
    | StringText(s: string)
    | ArrayText(items: seq<Document>)
    | ObjectText(members: seq<Member>)

  datatype Member = Member(key: string, document: Document)

  // ---------------------------------------------------------------- what a document says

  /** A later member wins over an earlier one with the same key. */
  function Value(d: Document): Json
    decreases d, 0
  {
    match d
    case NullText => Null
    case BoolText(b) => Bool(b)
    case NumberText(n) => Number(n)
    case StringText(s) => String(s)
    case ArrayText(items) => Array(ItemValues(items))
    case ObjectText(members) => Object(MemberValues(members))
  }

  function ItemValues(items: seq<Document>): seq<Json>
    decreases items, 0
  {
    if items == [] then [] else [Value(items[0])] + ItemValues(items[1..])
  }

  function MemberValues(members: seq<Member>): map<string, Json>
    decreases members, 0
  {
    if members == [] then map[]
    else map[members[0].key := Value(members[0].document)] + MemberValues(members[1..])
  }

  function Keys(members: seq<Member>): seq<string> {
    seq(|members|, i requires 0 <= i < |members| => members[i].key)
  }

  /** No object of the document names a key twice, as no `serde_json::Map` does. */
  ghost predicate DistinctKeys(d: Document)
    decreases d, 0
  {
    match d
    case ArrayText(items) => forall i :: 0 <= i < |items| ==> DistinctKeys(items[i])
    case ObjectText(members) =>
      Distinct(Keys(members)) && forall i :: 0 <= i < |members| ==> DistinctKeys(members[i].document)
    case _ => true
  }

  // ---------------------------------------------------------------- how it is written

  /** One character inside a JSON string literal. */
  function EscapeChar(c: char): string {
    if c == '"' then "\\\""
    else if c == '\\' then "\\\\"
    else if c == 8 as char then "\\b"
    else if c == 12 as char then "\\f"
    else if c == '\n' then "\\n"
    else if c == '\r' then "\\r"
    else if c == '\t' then "\\t"
    else if c < ' ' then "\\u00" + [LowerHexDigit(c as int / 16), LowerHexDigit(c as int % 16)]
    else [c]
  }

  function Escape(s: string): string {
    if s == [] then "" else EscapeChar(s[0]) + Escape(s[1..])
  }

  function Quote(s: string): string {
    "\"" + Escape(s) + "\""
  }

  function Write(d: Document): string
    decreases d, 0
  {
    match d
    case NullText => "null"
    case BoolText(b) => if b then "true" else "false"
    case NumberText(n) => DecimalInt(n)
    case StringText(s) => Quote(s)
    case ArrayText(items) => "[" + WriteItems(items) + "]"
    case ObjectText(members) => "{" + WriteMembers(members) + "}"
  }

  function WriteItems(items: seq<Document>): string
    decreases items, 0
  {
    if items == [] then ""
    else if |items| == 1 then Write(items[0])
    else Write(items[0]) + "," + WriteItems(items[1..])
  }

  function WriteMembers(members: seq<Member>): string
    decreases members, 0
  {
    if members == [] then ""
    else
      var more := if |members| == 1 then "" else "," + WriteMembers(members[1..]);
      Quote(members[0].key) + (":" + (Write(members[0].document) + more))
  }

  // ---------------------------------------------------------------- canonical form

  /** The one document of a value that lists every object in ascending key order. */
  function Ascending(j: Json): Document
    decreases j, 0
  {
    match j
    case Null => NullText
    case Bool(b) => BoolText(b)
    case Number(n) => NumberText(n)
    case String(s) => StringText(s)
    case Array(items) => ArrayText(AscendingItems(items))
    case Object(members) => ObjectText(AscendingMembers(j, SortedKeys(members.Keys)))
  }

  function AscendingItems(items: seq<Json>): seq<Document>
    decreases items, 0
  {
    if items == [] then [] else [Ascending(items[0])] + AscendingItems(items[1..])
  }

  function AscendingMembers(owner: Json, keys: seq<string>): seq<Member>
    requires owner.Object? && forall k :: k in keys ==> k in owner.members
    decreases owner, 0, |keys|
  {
    if keys == [] then []
    else [Member(keys[0], Ascending(owner.members[keys[0]]))] + AscendingMembers(owner, keys[1..])
  }

  /** The canonical text of a value. */
  function Canonical(j: Json): string {
    Write(Ascending(j))
  }

  // ---------------------------------------------------------------- as it is computed

  /** The last member with a key, as a lookup in the map finds it. */
  function Find(members: seq<Member>, key: string): (r: Document)
    requires key in Keys(members)
    ensures exists i :: 0 <= i < |members| && members[i] == Member(key, r)
  {
    var n := |members| - 1;
    if members[n].key == key then members[n].document
    else
      assert forall i :: 0 <= i < n ==> Keys(members[..n])[i] == Keys(members)[i];
      Find(members[..n], key)
  }

  /** `canonical_json_value`: collect the keys as the map yields them, sort them, and look each one up. */
  function SortMembers(d: Document): Document
    decreases d, 0
  {
    match d
    case ArrayText(items) => ArrayText(SortItems(items))
    case ObjectText(members) =>
      SortStringsCorrect(Keys(members));
      SameMultisetSameElements(Keys(members), SortStrings(Keys(members)));
      assert forall k :: k in SortStrings(Keys(members)) ==> k in Elements(Keys(members));
      ObjectText(SortListed(members, SortStrings(Keys(members))))
    case _ => d
  }

  function SortItems(items: seq<Document>): seq<Document>
    decreases items, 0
  {
    if items == [] then [] else [SortMembers(items[0])] + SortItems(items[1..])
  }

  function SortListed(members: seq<Member>, keys: seq<string>): seq<Member>
    requires forall k :: k in keys ==> k in Keys(members)
    decreases members, 0, |keys|
  {
    if keys == [] then []
    else [Member(keys[0], SortMembers(Find(members, keys[0])))] + SortListed(members, keys[1..])
  }
}
