/** The exact text of identities, escapes and envelopes, character by character. */
module WireText {
  import opened Ordering
  import opened Text
  import opened Uuids
  import opened Json
  import opened JsonRoundTrip
  import opened Records
  import opened Requests

  // ---------------------------------------------------------------- characters

  const LOWER_HEX := "0123456789abcdef"

  lemma LowerLiterally(d: nat)
    requires d < 16
    ensures LowerHexDigit(d) == LOWER_HEX[d]
  {
    assert LOWER_HEX[d] == if d < 10 then (d + 48) as char else (d + 87) as char;
  }

  /**
   Two characters have short escapes of their own, five controls have letters, and the rest four lower-case digits.
   */
  lemma EscapedLiterally(c: char)
    ensures c == '"' ==> EscapeChar(c) == ['\\', '"']
    ensures c == '\\' ==> EscapeChar(c) == ['\\', '\\']
    ensures c as int == 8 ==> EscapeChar(c) == ['\\', 'b']
    ensures c as int == 9 ==> EscapeChar(c) == ['\\', 't']
    ensures c as int == 10 ==> EscapeChar(c) == ['\\', 'n']
    ensures c as int == 12 ==> EscapeChar(c) == ['\\', 'f']
    ensures c as int == 13 ==> EscapeChar(c) == ['\\', 'r']
    ensures c as int < 32 && c as int !in {8, 9, 10, 12, 13} ==>
              EscapeChar(c) == ['\\', 'u', '0', '0', LOWER_HEX[c as int / 16], LOWER_HEX[c as int % 16]]
    ensures c as int >= 32 && c != '"' && c != '\\' ==> EscapeChar(c) == [c]
  {
    hide LowerHexDigit;
    if c as int < 32 {
      LowerLiterally(c as int / 16);
      LowerLiterally(c as int % 16);
    }
  }

  predicate Plain(c: char) {
    ' ' <= c && c != '"' && c != '\\'
  }

  lemma {:induction false} EscapePlain(s: string)
    requires forall c :: c in s ==> Plain(c)
    ensures Escape(s) == s
  {
    if s != [] {
      assert s[0] in s;
      assert forall c :: c in s[1..] ==> c in s;
      EscapePlain(s[1..]);
      EscapedLiterally(s[0]);
    }
  }

  // ---------------------------------------------------------------- UUIDs

  /** Where byte `j` of a UUID starts in its text: after four hyphens at most. */
  function UuidAt(j: nat): nat {
    2 * j + (if j < 4 then 0 else if j < 6 then 1 else if j < 8 then 2 else if j < 10 then 3 else 4)
  }

  lemma {:induction false} HexLiterally(bytes: seq<Byte>, j: nat)
    requires j < |bytes|
    ensures Hex(bytes)[2 * j] == LOWER_HEX[bytes[j] / 16] && Hex(bytes)[2 * j + 1] == LOWER_HEX[bytes[j] % 16]
  {
    LowerLiterally(bytes[0] / 16);
    LowerLiterally(bytes[0] % 16);
    if j > 0 {
      HexLiterally(bytes[1..], j - 1);
      assert Hex(bytes)[2..] == Hex(bytes[1..]);
    }
  }

  /** Every byte is two lower-case digits in order, with hyphens after the fourth, sixth, eighth and tenth. */
  lemma UuidLiterally(u: Uuid, j: nat)
    requires j < 16
    ensures var text := UuidText(u);
            && |text| == 36 && text[8] == text[13] == text[18] == text[23] == '-'
            && text[UuidAt(j)] == LOWER_HEX[u[j] / 16] && text[UuidAt(j) + 1] == LOWER_HEX[u[j] % 16]
  {
    HexLiterally(u, j);
  }

  /** The nil UUID is all zeros. */
  lemma NilText(j: nat)
    requires j < 16
    ensures NIL[j] == 0 && UuidText(NIL)[UuidAt(j)] == UuidText(NIL)[UuidAt(j) + 1] == '0'
  {
    hide UuidText, UuidAt;
    UuidLiterally(NIL, j);
  }

  lemma UuidPlain(u: Uuid)
    ensures forall c :: c in UuidText(u) ==> Plain(c)
    ensures Quote(UuidText(u)) == "\"" + UuidText(u) + "\""
  {
    EscapePlain(UuidText(u));
  }

  // ---------------------------------------------------------------- ascending keys

  /** A key list in ascending order, by code point. */
  ghost predicate KeysAscend(keys: seq<string>) {
    forall i, j :: 0 <= i < j < |keys| ==> Before(keys[i], keys[j])
  }

  /** A proper prefix comes first, and otherwise the first difference decides. */
  ghost predicate Before(a: string, b: string) {
    a != b && (a <= b || exists k :: 0 <= k < |a| && k < |b| && a[..k] == b[..k] && a[k] < b[k])
  }

  /** Every object of the document lists its members in ascending key order. */
  ghost predicate Ordered(d: Document)
    decreases d, 0
  {
    match d
    case ArrayText(items) => forall i :: 0 <= i < |items| ==> Ordered(items[i])
    case ObjectText(members) =>
      KeysAscend(Keys(members)) && forall i :: 0 <= i < |members| ==> Ordered(members[i].document)
    case _ => true
  }

  lemma SortedAscends(keys: seq<string>)
    requires Sorted(keys) && Distinct(keys)
    ensures KeysAscend(keys)
  {
    forall i, j | 0 <= i < j < |keys| ensures Before(keys[i], keys[j]) {
      AtMostMeans(keys[i], keys[j]);
    }
  }

  /** The canonical text of a value lists the members of every object, at every depth, in ascending key order. */
  lemma {:induction false} CanonicalAscends(j: Json)
    ensures Ordered(Ascending(j))
    decreases j, 1
  {
    match j
    case Array(items) => ItemsAscend(items);
    case Object(members) =>
      var keys := SortedKeys(members.Keys);
      assert forall k :: k in keys ==> k in Elements(keys);
      MembersAscend(j, keys);
      SortedAscends(keys);
    case _ =>
  }

  lemma {:induction false} ItemsAscend(items: seq<Json>)
    ensures forall i :: 0 <= i < |AscendingItems(items)| ==> Ordered(AscendingItems(items)[i])
    decreases items, 0
  {
    if items != [] {
      CanonicalAscends(items[0]);
      ItemsAscend(items[1..]);
    }
  }

  lemma {:induction false} MembersAscend(owner: Json, keys: seq<string>)
    requires owner.Object? && forall k :: k in keys ==> k in owner.members
    ensures Keys(AscendingMembers(owner, keys)) == keys
    ensures forall i :: 0 <= i < |AscendingMembers(owner, keys)| ==> Ordered(AscendingMembers(owner, keys)[i].document)
    decreases owner, 0, |keys|
  {
    if keys != [] {
      CanonicalAscends(owner.members[keys[0]]);
      MembersAscend(owner, keys[1..]);
    }
  }

  /** A list of keys that ascends is the list an object with these keys is written in. */
  lemma KeysAre(keys: seq<string>)
    requires KeysAscend(keys)
    ensures SortedKeys(Elements(keys)) == keys
  {
    forall i, j | 0 <= i < j < |keys| ensures AtMost(keys[i], keys[j]) && keys[i] != keys[j] {
      assert Before(keys[i], keys[j]);
      AtMostMeans(keys[i], keys[j]);
    }
    SortedDistinctUnique(keys, SortedKeys(Elements(keys)));
  }

  // ---------------------------------------------------------------- arrays and objects

  function ItemTexts(items: seq<Json>): seq<string> {
    seq(|items|, i requires 0 <= i < |items| => Canonical(items[i]))
  }

  function MemberTexts(j: Json, keys: seq<string>): seq<string>
    requires j.Object? && forall k :: k in keys ==> k in j.members
  {
    seq(|keys|, i requires 0 <= i < |keys| =>
      assert keys[i] in keys;
      Quote(keys[i]) + ":" + Canonical(j.members[keys[i]]))
  }

  lemma {:induction false} ItemsWritten(items: seq<Json>)
    ensures WriteItems(AscendingItems(items)) == Join(ItemTexts(items), ',')
  {
    if items != [] {
      ItemsWritten(items[1..]);
      assert ItemTexts(items)[1..] == ItemTexts(items[1..]);
      assert |AscendingItems(items)| == 1 <==> |items| == 1 by { ItemsCounted(items); }
      assert AscendingItems(items)[1..] == AscendingItems(items[1..]);
    }
  }

  lemma {:induction false} ItemsCounted(items: seq<Json>)
    ensures |AscendingItems(items)| == |items|
  {
    if items != [] {
      ItemsCounted(items[1..]);
    }
  }

  lemma {:induction false} MembersWritten(j: Json, keys: seq<string>)
    requires j.Object? && forall k :: k in keys ==> k in j.members
    ensures WriteMembers(AscendingMembers(j, keys)) == Join(MemberTexts(j, keys), ',')
  {
    if keys != [] {
      var ms, texts := AscendingMembers(j, keys), MemberTexts(j, keys);
      MembersWritten(j, keys[1..]);
      MembersAscend(j, keys);
      assert texts[1..] == MemberTexts(j, keys[1..]) && ms[1..] == AscendingMembers(j, keys[1..]);
      var value := Canonical(j.members[keys[0]]);
      assert texts[0] == Quote(keys[0]) + ":" + value;
      hide Quote, Canonical;
      if |keys| == 1 {
        assert Quote(keys[0]) + (":" + (value + "")) == Quote(keys[0]) + ":" + value;
      } else {
        FirstMember(Quote(keys[0]), value, Join(texts[1..], ','));
      }
    }
  }

  lemma FirstMember(key: string, value: string, rest: string)
    ensures key + (":" + (value + ("," + rest))) == (key + ":" + value) + [','] + rest
  {
    Reassociate(key, ":" + value, "," + rest);
    Reassociate(":", value, "," + rest);
    Reassociate(key, ":", value);
    Reassociate(key + ":" + value, ",", rest);
  }

  /** The canonical text of an array is its items' texts, in order, between commas, with nothing else in it. */
  lemma ArrayLiterally(items: seq<Json>)
    ensures Canonical(Array(items)) == "[" + Join(ItemTexts(items), ',') + "]"
  {
    ItemsWritten(items);
  }

  /**
   The canonical text of an object is, for its keys in ascending order, the quoted key, a colon and the value's text,
   between commas, with nothing else in it.
   */
  lemma ObjectLiterally(j: Json, keys: seq<string>)
    requires j.Object? && KeysAscend(keys) && Elements(keys) == j.members.Keys
    ensures forall k :: k in keys ==> k in j.members
    ensures Canonical(j) == "{" + Join(MemberTexts(j, keys), ',') + "}"
  {
    assert forall k :: k in keys ==> k in Elements(keys);
    KeysAre(keys);
    MembersWritten(j, keys);
  }

  // ---------------------------------------------------------------- envelopes

  lemma QuotedPlain(s: string)
    requires forall c :: c in s ==> Plain(c)
    ensures Quote(s) == "\"" + s + "\""
  {
    EscapePlain(s);
  }

  lemma FirstDiffers(a: string, b: string)
    requires a != [] && b != [] && a[0] < b[0]
    ensures Before(a, b)
  {
    assert a[..0] == b[..0];
  }

  lemma JoinTwo(a: string, b: string)
    ensures Join([a, b], ',') == a + "," + b
  {
    assert [a, b][1..] == [b];
  }

  lemma JoinThree(a: string, b: string, c: string)
    ensures Join([a, b, c], ',') == a + "," + (b + "," + c)
  {
    assert [a, b, c][1..] == [b, c];
    JoinTwo(b, c);
  }

  lemma JoinFour(a: string, b: string, c: string, d: string)
    ensures Join([a, b, c, d], ',') == a + "," + (b + "," + (c + "," + d))
  {
    assert [a, b, c, d][1..] == [b, c, d];
    JoinThree(b, c, d);
  }

  /** An object of two plain ascending keys. */
  lemma TwoMembers(j: Json, a: string, b: string)
    requires j.Object? && j.members.Keys == {a, b} && Before(a, b)
    ensures Canonical(j) == "{" + (Quote(a) + ":" + Canonical(j.members[a]) + ","
                                   + (Quote(b) + ":" + Canonical(j.members[b]))) + "}"
  {
    hide Canonical, Quote, Before;
    assert Elements([a, b]) == {a, b};
    ObjectLiterally(j, [a, b]);
    var x, y := Quote(a) + ":" + Canonical(j.members[a]), Quote(b) + ":" + Canonical(j.members[b]);
    assert MemberTexts(j, [a, b]) == [x, y];
    JoinTwo(x, y);
  }

  lemma ThreeMembers(j: Json, a: string, b: string, c: string)
    requires j.Object? && j.members.Keys == {a, b, c} && Before(a, b) && Before(b, c) && Before(a, c)
    ensures Canonical(j) == "{" + (Quote(a) + ":" + Canonical(j.members[a]) + ","
                                   + (Quote(b) + ":" + Canonical(j.members[b]) + ","
                                      + (Quote(c) + ":" + Canonical(j.members[c])))) + "}"
  {
    hide Canonical, Quote, Before;
    assert Elements([a, b, c]) == {a, b, c};
    ObjectLiterally(j, [a, b, c]);
    var x, y := Quote(a) + ":" + Canonical(j.members[a]), Quote(b) + ":" + Canonical(j.members[b]);
    var z := Quote(c) + ":" + Canonical(j.members[c]);
    assert MemberTexts(j, [a, b, c]) == [x, y, z];
    JoinThree(x, y, z);
  }

  lemma FourMembers(j: Json, a: string, b: string, c: string, d: string)
    requires j.Object? && j.members.Keys == {a, b, c, d} && KeysAscend([a, b, c, d])
    ensures Canonical(j) == "{" + (Quote(a) + ":" + Canonical(j.members[a]) + ","
                                   + (Quote(b) + ":" + Canonical(j.members[b]) + ","
                                      + (Quote(c) + ":" + Canonical(j.members[c]) + ","
                                         + (Quote(d) + ":" + Canonical(j.members[d]))))) + "}"
  {
    hide Canonical, Quote, Before, KeysAscend;
    assert Elements([a, b, c, d]) == {a, b, c, d};
    ObjectLiterally(j, [a, b, c, d]);
    var x, y := Quote(a) + ":" + Canonical(j.members[a]), Quote(b) + ":" + Canonical(j.members[b]);
    var z, t := Quote(c) + ":" + Canonical(j.members[c]), Quote(d) + ":" + Canonical(j.members[d]);
    assert MemberTexts(j, [a, b, c, d]) == [x, y, z, t];
    JoinFour(x, y, z, t);
  }

  lemma QuotedKey(key: string)
    requires forall c :: c in key ==> Plain(c)
    ensures Quote(key) + ":" == "\"" + key + "\":"
  {
    hide Quote;
    QuotedPlain(key);
  }

  lemma OuterKeys()
    ensures Quote("id") + ":" == "\"id\":" && Quote("jsonrpc") + ":" == "\"jsonrpc\":"
    ensures Quote("method") + ":" == "\"method\":" && Quote("params") + ":" == "\"params\":"
  {
    hide Quote;
    QuotedKey("id");
    QuotedKey("jsonrpc");
    QuotedKey("method");
    QuotedKey("params");
  }

  lemma InnerKeys()
    ensures Quote("id") + ":" == "\"id\":"
    ensures Quote("name") + ":" == "\"name\":" && Quote("arguments") + ":" == "\"arguments\":"
    ensures Quote("calls") + ":" == "\"calls\":" && Quote("contract") + ":" == "\"contract\":"
  {
    hide Quote;
    QuotedKey("id");
    QuotedKey("name");
    QuotedKey("arguments");
    QuotedKey("calls");
    QuotedKey("contract");
  }

  lemma EnvelopeKeys()
    ensures KeysAscend(["id", "jsonrpc", "method", "params"])
    ensures Before("arguments", "name") && Before("calls", "contract")
    ensures Before("arguments", "id") && Before("id", "name") && Before("arguments", "name")
  {
    hide Before;
    FirstDiffers("id", "jsonrpc");
    FirstDiffers("id", "method");
    FirstDiffers("id", "params");
    FirstDiffers("jsonrpc", "method");
    FirstDiffers("jsonrpc", "params");
    FirstDiffers("method", "params");
    FirstDiffers("arguments", "name");
    FirstDiffers("arguments", "id");
    FirstDiffers("id", "name");
    SecondDiffers("calls", "contract");
    var keys := ["id", "jsonrpc", "method", "params"];
    assert keys[0] == "id" && keys[1] == "jsonrpc" && keys[2] == "method" && keys[3] == "params";
  }

  lemma SecondDiffers(a: string, b: string)
    requires |a| > 1 && |b| > 1 && a[0] == b[0] && a[1] < b[1]
    ensures Before(a, b)
  {
    assert a[..1] == b[..1];
  }

  /** The text between the braces of an envelope. */
  function EnvelopeText(id: string, rpcMethod: string, params: string): string {
    "{" + ("\"id\":" + id + "," + ("\"jsonrpc\":" + "\"2.0\"" + ","
           + ("\"method\":" + rpcMethod + "," + ("\"params\":" + params)))) + "}"
  }

  lemma CanonicalString(s: string)
    ensures Canonical(String(s)) == Quote(s)
  {
  }

  lemma EnvelopeMembers(id: Json, rpcMethod: Json, params: Json)
    ensures var m := map["jsonrpc" := String("2.0"), "id" := id, "method" := rpcMethod, "params" := params];
            && m.Keys == {"id", "jsonrpc", "method", "params"} && m["id"] == id && m["jsonrpc"] == String("2.0")
            && m["method"] == rpcMethod && m["params"] == params
  {
  }

  lemma EnvelopeLiterally(j: Json, id: Uuid, rpcMethod: string, params: Json)
    requires j == Object(map["jsonrpc" := String("2.0"), "id" := String(UuidText(id)), "method" := String(rpcMethod),
                             "params" := params])
    ensures Canonical(j) == EnvelopeText("\"" + UuidText(id) + "\"", Quote(rpcMethod), Canonical(params))
  {
    hide Before, KeysAscend, Quote, UuidText, Canonical, Plain;
    EnvelopeMembers(String(UuidText(id)), String(rpcMethod), params);
    EnvelopeKeys();
    OuterKeys();
    UuidPlain(id);
    TwoPointZero();
    CanonicalString("2.0");
    CanonicalString(UuidText(id));
    CanonicalString(rpcMethod);
    FourMembers(j, "id", "jsonrpc", "method", "params");
  }

  lemma TwoPointZero()
    ensures Quote("2.0") == "\"2.0\""
  {
    hide Quote;
    QuotedPlain("2.0");
  }

  lemma ToolParams(name: string, arguments: Json)
    ensures var m := map["name" := String(name), "arguments" := arguments];
            m.Keys == {"arguments", "name"} && m["name"] == String(name) && m["arguments"] == arguments
  {
  }

  /** The exact text a single-tool request is hashed as. */
  lemma ToolText(id: Uuid, name: string, arguments: Json)
    ensures Canonical(ToolEnvelope(id, name, arguments))
         == EnvelopeText("\"" + UuidText(id) + "\"", "\"tools/call\"",
                         "{" + ("\"arguments\":" + Canonical(arguments) + "," + ("\"name\":" + Quote(name))) + "}")
  {
    hide Before, KeysAscend, Quote, UuidText, EnvelopeText, Canonical, Plain;
    var params := Object(map["name" := String(name), "arguments" := arguments]);
    ToolParams(name, arguments);
    EnvelopeKeys();
    InnerKeys();
    ToolMethodText();
    CanonicalString(name);
    TwoMembers(params, "arguments", "name");
    EnvelopeLiterally(ToolEnvelope(id, name, arguments), id, "tools/call", params);
  }

  lemma ToolMethodText()
    ensures Quote("tools/call") == "\"tools/call\""
  {
    hide Quote;
    QuotedPlain("tools/call");
  }

  lemma CallMembers(call: ModelToolCall)
    ensures CallJson(call).Object?
    ensures var m := CallJson(call).members;
            && m.Keys == {"arguments", "id", "name"} && m["arguments"] == call.arguments
            && m["id"] == String(call.id) && m["name"] == String(call.name)
  {
  }

  /** The exact text of one call of a batch. */
  lemma CallText(call: ModelToolCall)
    ensures Canonical(CallJson(call))
         == "{" + ("\"arguments\":" + Canonical(call.arguments) + ","
                   + ("\"id\":" + Quote(call.id) + "," + ("\"name\":" + Quote(call.name)))) + "}"
  {
    hide Before, KeysAscend, Quote, Canonical, CallJson, Plain;
    EnvelopeKeys();
    InnerKeys();
    CallMembers(call);
    CanonicalString(call.id);
    CanonicalString(call.name);
    ThreeMembers(CallJson(call), "arguments", "id", "name");
  }

  lemma BatchMembers(calls: seq<ModelToolCall>)
    ensures var m := BatchArguments(calls).members;
            && m.Keys == {"calls", "contract"} && m["calls"] == Array(CallsJson(calls))
            && m["contract"] == String("clavenar.atomic-tool-call-batch/v1")
    ensures var m := BatchParams(calls).members;
            && m.Keys == {"arguments", "name"} && m["arguments"] == BatchArguments(calls)
            && m["name"] == String("clavenar.atomic-batch")
    ensures BatchArguments(calls).Object? && BatchParams(calls).Object?
  {
    hide CallsJson;
  }

  lemma BatchMethodText()
    ensures Quote("clavenar/tools.batch") == "\"clavenar/tools.batch\""
  {
    hide Quote;
    QuotedPlain("clavenar/tools.batch");
  }

  lemma BatchNameText()
    ensures Quote("clavenar.atomic-batch") == "\"clavenar.atomic-batch\""
  {
    hide Quote;
    QuotedPlain("clavenar.atomic-batch");
  }

  lemma BatchContractText()
    ensures Quote("clavenar.atomic-tool-call-batch/v1") == "\"" + "clavenar.atomic-tool-call-batch/v1" + "\""
  {
    hide Quote;
    QuotedPlain("clavenar.atomic-tool-call-batch/v1");
  }

  /** The exact text a batch is hashed as, its calls in the requested order. */
  lemma BatchText(id: Uuid, calls: seq<ModelToolCall>)
    ensures var list := "[" + Join(ItemTexts(CallsJson(calls)), ',') + "]";
            var arguments := "{" + ("\"calls\":" + list + ","
                                    + ("\"contract\":" + ("\"" + "clavenar.atomic-tool-call-batch/v1" + "\""))) + "}";
            Canonical(BatchEnvelope(id, calls))
            == EnvelopeText("\"" + UuidText(id) + "\"", "\"clavenar/tools.batch\"",
                            "{" + ("\"arguments\":" + arguments + ","
                                   + ("\"name\":" + "\"clavenar.atomic-batch\"")) + "}")
  {
    hide Before, KeysAscend, Quote, UuidText, EnvelopeText, CallsJson, ItemTexts, Join, Canonical, BatchArguments,
         BatchParams, Plain;
    EnvelopeKeys();
    InnerKeys();
    BatchMethodText();
    BatchNameText();
    BatchContractText();
    BatchMembers(calls);
    ArrayLiterally(CallsJson(calls));
    CanonicalString("clavenar.atomic-tool-call-batch/v1");
    CanonicalString("clavenar.atomic-batch");
    TwoMembers(BatchArguments(calls), "calls", "contract");
    TwoMembers(BatchParams(calls), "arguments", "name");
    EnvelopeLiterally(BatchEnvelope(id, calls), id, "clavenar/tools.batch", BatchParams(calls));
  }

  lemma NumberTexts()
    ensures Canonical(Number(1)) == "1" && Canonical(Number(2)) == "2" && Canonical(Number(3)) == "3"
  {
  }

  lemma LetterKeys()
    ensures Quote("a") == "\"a\"" && Quote("b") == "\"b\"" && Quote("y") == "\"y\"" && Quote("z") == "\"z\""
    ensures Before("a", "z") && Before("b", "y")
  {
    hide Quote, Before;
    QuotedPlain("a");
    QuotedPlain("b");
    QuotedPlain("y");
    QuotedPlain("z");
    FirstDiffers("b", "y");
    FirstDiffers("a", "z");
  }

  lemma LetterMembers(x: Json, y: Json)
    ensures var m := map["z" := x, "a" := y]; m.Keys == {"a", "z"} && m["a"] == y && m["z"] == x
    ensures var m := map["y" := x, "b" := y]; m.Keys == {"b", "y"} && m["b"] == y && m["y"] == x
  {
  }

  /** Nested objects are sorted too: `{"z": 1, "a": {"y": 2, "b": 3}}` has this text. */
  lemma NestedText()
    ensures Canonical(Object(map["z" := Number(1), "a" := Object(map["y" := Number(2), "b" := Number(3)])]))
         == "{\"a\":{\"b\":3,\"y\":2},\"z\":1}"
  {
    var inner := Object(map["y" := Number(2), "b" := Number(3)]);
    LetterKeys();
    NumberTexts();
    LetterMembers(Number(2), Number(3));
    LetterMembers(Number(1), inner);
    hide Before, Quote, Canonical;
    TwoMembers(inner, "b", "y");
    TwoMembers(Object(map["z" := Number(1), "a" := inner]), "a", "z");
  }
}
