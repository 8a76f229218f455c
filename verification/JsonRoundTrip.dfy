/** The parser inverts the writer on every document, so the canonical form is injective and free of member order. */
module JsonRoundTrip {
  import opened Wrappers
  import opened Ordering
  import opened Text
  import opened Json
  import opened JsonParser

  // ---------------------------------------------------------------- strings

  lemma Reassociate(a: string, b: string, c: string)
    ensures (a + b) + c == a + (b + c)
  {
  }

  lemma EscapedControl(c: char, rest: string)
    requires c < ' '
    ensures ParseUnicodeEscape("00" + [LowerHexDigit(c as int / 16), LowerHexDigit(c as int % 16)] + rest)
         == Some(Parsed(c, rest))
  {
    var hi, lo := LowerHexDigit(c as int / 16), LowerHexDigit(c as int % 16);
    var s := "00" + [hi, lo] + rest;
    assert s[0] == '0' && s[1] == '0' && s[2] == hi && s[3] == lo;
    assert HexFour(s) == Some(c as int);
    assert s[4..] == rest;
  }

  lemma EscapedChar(c: char, rest: string)
    ensures EscapeChar(c) != [] && (EscapeChar(c) + rest)[0] != '"'
    ensures ParseChar(EscapeChar(c) + rest) == Some(Parsed(c, rest))
  {
    var s := EscapeChar(c) + rest;
    if |EscapeChar(c)| == 1 {
      assert s[1..] == rest;
    } else if |EscapeChar(c)| == 2 {
      assert s[0] == '\\' && s[1] == EscapeChar(c)[1] && s[2..] == rest;
    } else {
      EscapedControl(c, rest);
      var tail := "00" + [LowerHexDigit(c as int / 16), LowerHexDigit(c as int % 16)] + rest;
      assert s == "\\u" + tail;
      assert s[0] == '\\' && s[1] == 'u' && s[2..] == tail;
    }
  }

  lemma {:induction false} EscapedString(text: string, rest: string)
    ensures ParseChars(Escape(text) + ("\"" + rest)) == Some(Parsed(text, rest))
  {
    var tail := "\"" + rest;
    var s := Escape(text) + tail;
    if text == [] {
      assert s == tail && s[1..] == rest;
    } else {
      var more := Escape(text[1..]) + tail;
      assert s == EscapeChar(text[0]) + more;
      EscapedChar(text[0], more);
      EscapedString(text[1..], rest);
      assert text == [text[0]] + text[1..];
    }
  }

  // ---------------------------------------------------------------- numbers

  /** What may follow a printed value for it to be read back whole. */
  predicate Ends(rest: string) {
    rest == [] || (!IsDigit(rest[0]) && rest[0] !in ".eE")
  }

  lemma PrintedNumber(n: int, rest: string)
    requires Ends(rest)
    ensures DecimalInt(n) != []
    ensures ParseNumber(DecimalInt(n) + rest) == Some(Parsed(Number(n), rest))
  {
    var magnitude: nat := if n < 0 then -n else n;
    var digits := Decimal(magnitude);
    DecimalDigits(magnitude);
    LeadingDigitsOf(digits, rest);
    var s := DecimalInt(n) + rest;
    var t := if n < 0 then s[1..] else s;
    assert t == digits + rest;
    assert t[0] == digits[0];
    assert t[..|digits|] == digits && t[|digits|..] == rest;
  }

  // ---------------------------------------------------------------- one parser step at a time

  lemma NotAKeyword(t: string)
    requires t != [] && t[0] !in "ntf"
    ensures !StartsWith(t, "null") && !StartsWith(t, "true") && !StartsWith(t, "false")
  {
    if |t| >= 4 { assert t[..4][0] == t[0]; }
    if |t| >= 5 { assert t[..5][0] == t[0]; }
  }

  lemma ReadsKeyword(j: Json, word: string, rest: string)
    requires (j == Null && word == "null") || (j == Bool(true) && word == "true")
        || (j == Bool(false) && word == "false")
    ensures ParseValue(word + rest) == Some(Parsed(j, rest))
  {
    var s := word + rest;
    assert s[..|word|] == word && s[|word|..] == rest;
    assert s[0] == word[0];
    if word == "true" { assert s[..4][0] == 't'; }
    if word == "false" { assert s[..4][0] == 'f'; }
  }

  lemma NumberHead(n: int, rest: string)
    ensures var s := DecimalInt(n) + rest;
            s != [] && (s[0] == '-' || IsDigit(s[0]))
  {
    var magnitude: nat := if n < 0 then -n else n;
    DecimalDigits(magnitude);
    assert Decimal(magnitude)[0] in Decimal(magnitude);
    assert (DecimalInt(n) + rest)[0] == DecimalInt(n)[0];
  }

  lemma ReadsNumber(n: int, rest: string)
    requires Ends(rest)
    ensures ParseValue(DecimalInt(n) + rest) == Some(Parsed(Number(n), rest))
  {
    hide DecimalInt, ParseNumber, ParseItems, ParseMembers, ParseChars, StartsWith;
    NumberHead(n, rest);
    NotAKeyword(DecimalInt(n) + rest);
    PrintedNumber(n, rest);
  }

  lemma ReadsString(text: string, rest: string)
    ensures ParseValue(Quote(text) + rest) == Some(Parsed(String(text), rest))
  {
    var s := Quote(text) + rest;
    QuoteThen(text, rest);
    assert s[0] == '"' && s[1..] == Escape(text) + ("\"" + rest);
    NotAKeyword(s);
    EscapedString(text, rest);
  }

  lemma ReadsEmptyArray(rest: string)
    ensures ParseValue("[]" + rest) == Some(Parsed(Array([]), rest))
  {
    var s := "[]" + rest;
    NotAKeyword(s);
    assert s[1..] == "]" + rest && s[1..][1..] == rest;
  }

  lemma ReadsArray(u: string, items: seq<Json>, rest: string)
    requires u != [] && !IsSpace(u[0]) && u[0] != ']'
    requires ParseItems(u) == Some(Parsed(items, rest))
    ensures ParseValue("[" + u) == Some(Parsed(Array(items), rest))
  {
    var s := "[" + u;
    NotAKeyword(s);
    assert s[1..] == u;
  }

  lemma ReadsLastItem(s: string, j: Json, rest: string)
    requires ParseValue(s) == Some(Parsed(j, "]" + rest))
    ensures ParseItems(s) == Some(Parsed([j], rest))
  {
    assert ("]" + rest)[1..] == rest;
  }

  lemma ReadsItem(s: string, j: Json, u: string, items: seq<Json>, rest: string)
    requires ParseValue(s) == Some(Parsed(j, "," + u))
    requires ParseItems(u) == Some(Parsed(items, rest))
    ensures ParseItems(s) == Some(Parsed([j] + items, rest))
  {
    assert ("," + u)[1..] == u;
  }

  lemma ReadsEmptyObject(rest: string)
    ensures ParseValue("{}" + rest) == Some(Parsed(Object(map[]), rest))
  {
    var s := "{}" + rest;
    NotAKeyword(s);
    assert s[1..] == "}" + rest && s[1..][1..] == rest;
  }

  lemma ReadsObject(u: string, members: map<string, Json>, rest: string)
    requires u != [] && u[0] == '"'
    requires ParseMembers(u) == Some(Parsed(members, rest))
    ensures ParseValue("{" + u) == Some(Parsed(Object(members), rest))
  {
    var s := "{" + u;
    NotAKeyword(s);
    assert s[1..] == u;
  }

  lemma QuoteThen(text: string, rest: string)
    ensures Quote(text) + rest == "\"" + (Escape(text) + ("\"" + rest))
  {
    Reassociate("\"" + Escape(text), "\"", rest);
    Reassociate("\"", Escape(text), "\"" + rest);
  }

  lemma ReadsPair(key: string, t: string, j: Json, after: string)
    requires ParseValue(t) == Some(Parsed(j, after))
    ensures ParseMember(Quote(key) + (":" + t)) == Some(Parsed((key, j), after))
  {
    var s := Quote(key) + (":" + t);
    QuoteThen(key, ":" + t);
    assert s[0] == '"' && s[1..] == Escape(key) + ("\"" + (":" + t));
    EscapedString(key, ":" + t);
    assert (":" + t)[1..] == t;
  }

  lemma ReadsLastMember(s: string, key: string, j: Json, rest: string)
    requires ParseMember(s) == Some(Parsed((key, j), "}" + rest))
    ensures ParseMembers(s) == Some(Parsed(map[key := j], rest))
  {
    assert ("}" + rest)[1..] == rest;
  }

  lemma ReadsMember(s: string, key: string, j: Json, u: string, more: map<string, Json>, rest: string)
    requires ParseMember(s) == Some(Parsed((key, j), "," + u))
    requires ParseMembers(u) == Some(Parsed(more, rest))
    ensures ParseMembers(s) == Some(Parsed(map[key := j] + more, rest))
  {
    assert ("," + u)[1..] == u;
  }

  // ---------------------------------------------------------------- documents

  /** A written document never starts with whitespace, a closing bracket or nothing at all. */
  lemma WrittenHead(d: Document)
    ensures Write(d) != []
    ensures !IsSpace(Write(d)[0]) && Write(d)[0] != ']'
  {
    if d.NumberText? {
      DecimalDigits(if d.n < 0 then -d.n else d.n);
      assert IsDigit(Decimal(if d.n < 0 then -d.n else d.n)[0]);
    }
  }

  lemma {:induction false} DocumentRoundTrip(d: Document, rest: string)
    requires Ends(rest)
    ensures ParseValue(Write(d) + rest) == Some(Parsed(Value(d), rest))
    decreases d, 1
  {
    match d
    case NullText => ReadsKeyword(Null, "null", rest);
    case BoolText(b) => ReadsKeyword(Bool(b), if b then "true" else "false", rest);
    case NumberText(n) => ReadsNumber(n, rest);
    case StringText(text) => ReadsString(text, rest);
    case ArrayText(items) => ArrayRoundTrip(items, rest);
    case ObjectText(members) => ObjectRoundTrip(members, rest);
  }

  lemma {:induction false} ArrayRoundTrip(items: seq<Document>, rest: string)
    ensures ParseValue(Write(ArrayText(items)) + rest) == Some(Parsed(Array(ItemValues(items)), rest))
    decreases items, 2
  {
    hide ParseItems, ParseValue;
    if items == [] {
      assert Write(ArrayText(items)) == "[]";
      ReadsEmptyArray(rest);
    } else {
      var u := WriteItems(items) + ("]" + rest);
      assert Write(ArrayText(items)) + rest == "[" + u;
      WrittenHead(items[0]);
      assert u[0] == Write(items[0])[0];
      ItemsRoundTrip(items, rest);
      ReadsArray(u, ItemValues(items), rest);
    }
  }

  lemma {:induction false} ItemsRoundTrip(items: seq<Document>, rest: string)
    requires items != []
    ensures ParseItems(WriteItems(items) + ("]" + rest)) == Some(Parsed(ItemValues(items), rest))
    decreases items, 0
  {
    hide ParseItems, ParseValue;
    var value, more := Value(items[0]), ItemValues(items[1..]);
    assert ItemValues(items) == [value] + more;
    if |items| == 1 {
      DocumentRoundTrip(items[0], "]" + rest);
      ReadsLastItem(Write(items[0]) + ("]" + rest), value, rest);
      assert more == [] && ItemValues(items) == [value];
    } else {
      var u := WriteItems(items[1..]) + ("]" + rest);
      var s := Write(items[0]) + ("," + u);
      assert WriteItems(items) + ("]" + rest) == s;
      DocumentRoundTrip(items[0], "," + u);
      ItemsRoundTrip(items[1..], rest);
      ReadsItem(s, value, u, more, rest);
    }
  }

  lemma {:induction false} ObjectRoundTrip(members: seq<Member>, rest: string)
    ensures ParseValue(Write(ObjectText(members)) + rest) == Some(Parsed(Object(MemberValues(members)), rest))
    decreases members, 2
  {
    hide ParseMembers, ParseValue;
    if members == [] {
      assert Write(ObjectText(members)) == "{}";
      ReadsEmptyObject(rest);
    } else {
      var u := WriteMembers(members) + ("}" + rest);
      assert Write(ObjectText(members)) + rest == "{" + u;
      assert u[0] == '"';
      MembersRoundTrip(members, rest);
      ReadsObject(u, MemberValues(members), rest);
    }
  }

  /** A member followed by more text, with the key and the document apart. */
  lemma MemberText(members: seq<Member>, tail: string)
    requires members != []
    ensures var m := members[0];
            WriteMembers(members) + tail
            == if |members| == 1 then Quote(m.key) + (":" + (Write(m.document) + tail))
               else Quote(m.key) + (":" + (Write(m.document) + ("," + (WriteMembers(members[1..]) + tail))))
  {
    hide Quote, Write;
    var m := members[0];
    var more := if |members| == 1 then "" else "," + WriteMembers(members[1..]);
    var text := Write(m.document);
    Reassociate(Quote(m.key), ":" + (text + more), tail);
    Reassociate(":", text + more, tail);
    Reassociate(text, more, tail);
    if |members| > 1 {
      Reassociate(",", WriteMembers(members[1..]), tail);
    } else {
      assert more + tail == tail;
    }
  }

  lemma {:induction false} MembersRoundTrip(members: seq<Member>, rest: string)
    requires members != []
    ensures ParseMembers(WriteMembers(members) + ("}" + rest)) == Some(Parsed(MemberValues(members), rest))
    decreases members, 0
  {
    hide ParseMembers, ParseMember, ParseValue, Write, Quote;
    var key, value := members[0].key, Value(members[0].document);
    MemberText(members, "}" + rest);
    var s := WriteMembers(members) + ("}" + rest);
    hide WriteMembers;
    if |members| == 1 {
      DocumentRoundTrip(members[0].document, "}" + rest);
      ReadsPair(key, Write(members[0].document) + ("}" + rest), value, "}" + rest);
      ReadsLastMember(s, key, value, rest);
      assert MemberValues(members[1..]) == map[];
      assert MemberValues(members) == map[key := value];
    } else {
      var u := WriteMembers(members[1..]) + ("}" + rest);
      DocumentRoundTrip(members[0].document, "," + u);
      ReadsPair(key, Write(members[0].document) + ("," + u), value, "," + u);
      MembersRoundTrip(members[1..], rest);
      ReadsMember(s, key, value, u, MemberValues(members[1..]), rest);
    }
  }

  // ---------------------------------------------------------------- the ascending document

  lemma {:induction false} AscendingValue(j: Json)
    ensures Value(Ascending(j)) == j
    decreases j, 1
  {
    match j
    case Array(items) => AscendingItemValues(items);
    case Object(members) =>
      var keys := SortedKeys(members.Keys);
      assert forall k :: k in keys <==> k in Elements(keys);
      AscendingMemberValues(j, keys);
    case _ =>
  }

  lemma {:induction false} AscendingItemValues(items: seq<Json>)
    ensures ItemValues(AscendingItems(items)) == items
    decreases items, 0
  {
    if items != [] {
      AscendingValue(items[0]);
      AscendingItemValues(items[1..]);
    }
  }

  lemma {:induction false} AscendingMemberValues(owner: Json, keys: seq<string>)
    requires owner.Object? && forall k :: k in keys ==> k in owner.members
    ensures MemberValues(AscendingMembers(owner, keys)) == map k | k in keys :: owner.members[k]
    decreases owner, 0, |keys|
  {
    if keys != [] {
      AscendingValue(owner.members[keys[0]]);
      AscendingMemberValues(owner, keys[1..]);
      assert keys == [keys[0]] + keys[1..];
    }
  }

  // ---------------------------------------------------------------- main results

  /** Reading a document back gives its value, in whatever order each of its objects lists its members. */
  lemma ParseWrite(d: Document)
    ensures Parse(Write(d)) == Some(Value(d))
  {
    DocumentRoundTrip(d, "");
    assert Write(d) + "" == Write(d);
  }

  /** The canonical form can be uniquely decoded. */
  lemma ParseCanonical(j: Json)
    ensures Parse(Canonical(j)) == Some(j)
  {
    AscendingValue(j);
    ParseWrite(Ascending(j));
  }

  /** Equal canonical forms, equal values. */
  lemma CanonicalInjective(a: Json, b: Json)
    ensures Canonical(a) == Canonical(b) <==> a == b
  {
    ParseCanonical(a);
    ParseCanonical(b);
  }

  /** An object with distinct keys maps each listed key to the value listed with it, and nothing else. */
  lemma {:induction false} ListedValues(members: seq<Member>)
    requires Distinct(Keys(members))
    ensures MemberValues(members).Keys == Elements(Keys(members))
    ensures forall i :: 0 <= i < |members| ==>
              && members[i].key in MemberValues(members)
              && MemberValues(members)[members[i].key] == Value(members[i].document)
  {
    if members != [] {
      var rest := members[1..];
      assert Keys(members) == [members[0].key] + Keys(rest);
      assert Distinct(Keys(rest)) by {
        assert forall i :: 0 <= i < |rest| ==> Keys(rest)[i] == Keys(members)[i + 1];
      }
      ListedValues(rest);
      assert members[0].key !in Elements(Keys(rest)) by {
        assert forall i :: 0 <= i < |rest| ==> Keys(rest)[i] == Keys(members)[i + 1] != Keys(members)[0];
      }
      forall i | 0 <= i < |members|
        ensures members[i].key in MemberValues(members)
             && MemberValues(members)[members[i].key] == Value(members[i].document)
      {
        if i > 0 {
          assert rest[i - 1] == members[i] && Keys(rest)[i - 1] == members[i].key;
        }
      }
    }
  }

  lemma ListedIn(a: seq<Member>, b: seq<Member>, key: string)
    requires Distinct(Keys(a)) && Distinct(Keys(b)) && multiset(a) == multiset(b)
    requires key in MemberValues(a)
    ensures key in MemberValues(b) && MemberValues(b)[key] == MemberValues(a)[key]
  {
    ListedValues(a);
    ListedValues(b);
    assert key in Elements(Keys(a));
    var i :| 0 <= i < |a| && Keys(a)[i] == key;
    assert a[i] in multiset(b);
    var j :| 0 <= j < |b| && b[j] == a[i];
  }

  /** Listing the members of an object in another order does not change its value. */
  lemma PermutedMembers(a: seq<Member>, b: seq<Member>)
    requires Distinct(Keys(a)) && Distinct(Keys(b)) && multiset(a) == multiset(b)
    ensures Value(ObjectText(a)) == Value(ObjectText(b))
  {
    hide MemberValues, Distinct;
    forall key | key in MemberValues(a) ensures key in MemberValues(b) && MemberValues(b)[key] == MemberValues(a)[key] {
      ListedIn(a, b, key);
    }
    forall key | key in MemberValues(b) ensures key in MemberValues(a) {
      ListedIn(b, a, key);
    }
    assert MemberValues(a) == MemberValues(b);
  }

  // ---------------------------------------------------------------- collect, then sort

  /** Collecting and sorting the keys of each object turns any listing of a value into its ascending document. */
  lemma {:induction false} SortedIsAscending(d: Document)
    requires DistinctKeys(d)
    ensures SortMembers(d) == Ascending(Value(d))
    decreases d, 1
  {
    match d
    case ArrayText(items) => SortedItems(items);
    case ObjectText(members) =>
      ListedValues(members);
      CollectThenSort(Keys(members));
      var keys := SortStrings(Keys(members));
      assert forall k :: k in keys ==> k in Elements(keys);
      SortedListed(members, keys);
    case _ =>
  }

  lemma {:induction false} SortedItems(items: seq<Document>)
    requires forall i :: 0 <= i < |items| ==> DistinctKeys(items[i])
    ensures SortItems(items) == AscendingItems(ItemValues(items))
    decreases items, 0
  {
    if items != [] {
      SortedIsAscending(items[0]);
      SortedItems(items[1..]);
    }
  }

  lemma {:induction false} SortedListed(members: seq<Member>, keys: seq<string>)
    requires Distinct(Keys(members)) && forall i :: 0 <= i < |members| ==> DistinctKeys(members[i].document)
    requires forall k :: k in keys ==> k in Keys(members) && k in MemberValues(members)
    ensures SortListed(members, keys) == AscendingMembers(Object(MemberValues(members)), keys)
    decreases members, 0, |keys|
  {
    if keys != [] {
      ListedValues(members);
      SortedIsAscending(Find(members, keys[0]));
      SortedListed(members, keys[1..]);
    }
  }

  /** What is computed from a map, in whatever order it yields its keys at any depth, is the canonical text. */
  lemma CanonicalIgnoresKeyOrder(d: Document)
    requires DistinctKeys(d)
    ensures Write(SortMembers(d)) == Canonical(Value(d))
  {
    SortedIsAscending(d);
  }

  /** Two documents, each with its members in any order, have the same canonical text exactly when they say the same. */
  lemma MemberOrderIrrelevant(a: Document, b: Document)
    ensures var x, y := Parse(Write(a)), Parse(Write(b));
            x.Some? && y.Some? && (Canonical(x.value) == Canonical(y.value) <==> Value(a) == Value(b))
  {
    ParseWrite(a);
    ParseWrite(b);
    CanonicalInjective(Value(a), Value(b));
  }
}
