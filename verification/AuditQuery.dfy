/** The audit filter query and the paths it is appended to. */
module AuditQuery {
  import opened Wrappers
  import opened Text
  import opened PercentEncoding

  /** Timestamps are given as their RFC 3339 text. */
  datatype AuditFilter = AuditFilter(
    seqFrom: Option<int>,
    seqTo: Option<int>,
    from: Option<string>,
    to: Option<string>,
    methods: seq<string>,
    originalMethod: Option<string>,
    reason: Option<string>,
    verdict: Option<string>,
    brainDelta: Option<string>)

  /** A query field: a name and one or more comma-separated values. */
  datatype Field = Field(name: string, values: seq<string>)

  /** Unicode white space, which `trim` removes. */
  predicate IsWhitespace(c: char) {
    var n := c as int;
    9 <= n <= 13 || n == 0x20 || n == 0x85 || n == 0xA0 || n == 0x1680 || 0x2000 <= n <= 0x200A
    || n == 0x2028 || n == 0x2029 || n == 0x202F || n == 0x205F || n == 0x3000
  }

  predicate Blank(s: string) {
    forall c | c in s :: IsWhitespace(c)
  }

  function NonBlank(methods: seq<string>): (r: seq<string>)
    ensures forall m :: m in r <==> m in methods && !Blank(m)
  {
    if methods == [] then []
    else if Blank(methods[0]) then NonBlank(methods[1..])
    else [methods[0]] + NonBlank(methods[1..])
  }

  // ---------------------------------------------------------------- what a query should say

  function Single(name: string, value: Option<string>): seq<Field> {
    if value.Some? then [Field(name, [value.value])] else []
  }

  function Number(n: Option<int>): Option<string> {
    if n.Some? then Some(DecimalInt(n.value)) else None
  }

  function Methods(methods: seq<string>): seq<Field> {
    if NonBlank(methods) == [] then [] else [Field("methods", NonBlank(methods))]
  }

  /** The present filter fields, in order, with blank methods dropped. */
  function Fields(f: AuditFilter): seq<Field> {
    Single("seq_from", Number(f.seqFrom)) + Single("seq_to", Number(f.seqTo))
    + Single("from", f.from) + Single("to", f.to) + Methods(f.methods)
    + Single("original_method", f.originalMethod) + Single("reason", f.reason)
    + Single("verdict", f.verdict) + Single("brain_delta", f.brainDelta)
  }

  lemma OneOf(name: string, value: Option<string>, field: Field)
    ensures field in Single(name, value) <==> value.Some? && field == Field(name, [value.value])
  {
  }

  /** Each filter field is carried under its own name, at most once, and nothing else is. */
  lemma FieldsNamed(f: AuditFilter, field: Field)
    ensures field in Fields(f) <==>
              || (f.seqFrom.Some? && field == Field("seq_from", [DecimalInt(f.seqFrom.value)]))
              || (f.seqTo.Some? && field == Field("seq_to", [DecimalInt(f.seqTo.value)]))
              || (f.from.Some? && field == Field("from", [f.from.value]))
              || (f.to.Some? && field == Field("to", [f.to.value]))
              || (NonBlank(f.methods) != [] && field == Field("methods", NonBlank(f.methods)))
              || (f.originalMethod.Some? && field == Field("original_method", [f.originalMethod.value]))
              || (f.reason.Some? && field == Field("reason", [f.reason.value]))
              || (f.verdict.Some? && field == Field("verdict", [f.verdict.value]))
              || (f.brainDelta.Some? && field == Field("brain_delta", [f.brainDelta.value]))
  {
    OneOf("seq_from", Number(f.seqFrom), field);
    OneOf("seq_to", Number(f.seqTo), field);
    OneOf("from", f.from, field);
    OneOf("to", f.to, field);
    OneOf("original_method", f.originalMethod, field);
    OneOf("reason", f.reason, field);
    OneOf("verdict", f.verdict, field);
    OneOf("brain_delta", f.brainDelta, field);
    hide Single, NonBlank, DecimalInt;
  }

  /** The order of the fields: the two bounds, the two dates, the methods, then the four remaining values. */
  lemma FieldsInOrder(from: int, to: int, since: string, until: string, methods: seq<string>, original: string,
                      reason: string, verdict: string, delta: string)
    requires NonBlank(methods) != []
    ensures var f := AuditFilter(seqFrom := Some(from), seqTo := Some(to), from := Some(since), to := Some(until),
                                 methods := methods, originalMethod := Some(original), reason := Some(reason),
                                 verdict := Some(verdict), brainDelta := Some(delta));
            Fields(f)
            == [Field("seq_from", [DecimalInt(from)]), Field("seq_to", [DecimalInt(to)]), Field("from", [since]),
                Field("to", [until]), Field("methods", NonBlank(methods)), Field("original_method", [original]),
                Field("reason", [reason]), Field("verdict", [verdict]), Field("brain_delta", [delta])]
  {
    hide NonBlank, DecimalInt;
  }

  /** The methods kept are the ones that hold something other than white space, in their order. */
  lemma {:induction false} NonBlankKeeps(a: seq<string>, b: seq<string>)
    ensures NonBlank(a + b) == NonBlank(a) + NonBlank(b)
  {
    if a == [] {
      assert a + b == b;
    } else {
      NonBlankKeeps(a[1..], b);
      assert (a + b)[1..] == a[1..] + b;
    }
  }

  /** The white space of `trim`: the 25 characters Unicode gives that property. */
  lemma WhitespaceIs(c: char)
    ensures IsWhitespace(c) <==>
              c as int in {9, 10, 11, 12, 13, 32, 133, 160, 5760, 8192, 8193, 8194, 8195, 8196, 8197, 8198, 8199, 8200,
                           8201, 8202, 8232, 8233, 8239, 8287, 12288}
  {
  }

  // ---------------------------------------------------------------- how a query is read

  function DecodeAll(pieces: seq<string>): Option<seq<string>> {
    if pieces == [] then Some([])
    else
      var first :- DecodeSegment(pieces[0]);
      var rest :- DecodeAll(pieces[1..]);
      Some([first] + rest)
  }

  /** `name=value,value`, split on the raw separators before decoding. */
  function ParseField(piece: string): Option<Field> {
    var sides := SplitOn(piece, '=');
    if |sides| != 2 then None
    else
      var values :- DecodeAll(SplitOn(sides[1], ','));
      Some(Field(sides[0], values))
  }

  function ParseFields(pieces: seq<string>): Option<seq<Field>> {
    if pieces == [] then Some([])
    else
      var first :- ParseField(pieces[0]);
      var rest :- ParseFields(pieces[1..]);
      Some([first] + rest)
  }

  /** An appended query starts with its first `&`. */
  function ParseQuery(query: string): Option<seq<Field>> {
    var pieces := SplitOn(query, '&');
    if pieces[0] != "" then None else ParseFields(pieces[1..])
  }

  // ---------------------------------------------------------------- rendering and its inverse

  function Segments(values: seq<string>): (r: seq<string>)
    ensures |r| == |values|
  {
    seq(|values|, i requires 0 <= i < |values| => Segment(values[i]))
  }

  function Piece(f: Field): string {
    f.name + "=" + Join(Segments(f.values), ',')
  }

  function Rendered(fields: seq<Field>): string {
    if fields == [] then "" else "&" + Piece(fields[0]) + Rendered(fields[1..])
  }

  predicate PlainName(name: string) {
    '&' !in name && '=' !in name
  }

  ghost predicate Renderable(fields: seq<Field>) {
    forall f :: f in fields ==> PlainName(f.name) && f.values != []
  }

  lemma {:induction false} JoinChars(parts: seq<string>, separator: char, c: char)
    requires c != separator && forall p :: p in parts ==> c !in p
    ensures c !in Join(parts, separator)
  {
    if |parts| > 1 {
      assert forall p :: p in parts[1..] ==> p in parts;
      JoinChars(parts[1..], separator, c);
    }
  }

  lemma {:induction false} DecodeSegments(values: seq<string>)
    ensures DecodeAll(Segments(values)) == Some(values)
  {
    if values != [] {
      DecodeSegments(values[1..]);
      assert Segments(values)[1..] == Segments(values[1..]);
      assert values == [values[0]] + values[1..];
    }
  }

  lemma SegmentsSafe(values: seq<string>)
    ensures forall p :: p in Segments(values) ==> '&' !in p && '=' !in p && ',' !in p && '?' !in p && '/' !in p
  {
    forall p | p in Segments(values) ensures '&' !in p && '=' !in p && ',' !in p && '?' !in p && '/' !in p {
      var i :| 0 <= i < |values| && p == Segment(values[i]);
    }
  }

  lemma ParsePiece(f: Field)
    requires PlainName(f.name) && f.values != []
    ensures ParseField(Piece(f)) == Some(f)
    ensures '&' !in Piece(f)
  {
    var parts := Segments(f.values);
    SegmentsSafe(f.values);
    JoinChars(parts, ',', '=');
    JoinChars(parts, ',', '&');
    SplitFirst(f.name, '=', Join(parts, ','));
    SplitWithout(Join(parts, ','), '=');
    SplitJoin(parts, ',');
    DecodeSegments(f.values);
  }

  /** Splitting a rendered query gives its pieces after one empty piece. */
  lemma {:induction false} SplitRendered(fields: seq<Field>)
    requires Renderable(fields)
    ensures SplitOn(Rendered(fields), '&')[0] == ""
    ensures ParseFields(SplitOn(Rendered(fields), '&')[1..]) == Some(fields)
  {
    if fields != [] {
      var rest := fields[1..];
      assert fields == [fields[0]] + rest;
      assert Renderable(rest) by { assert forall f :: f in rest ==> f in fields; }
      SplitRendered(rest);
      ParsePiece(fields[0]);
      RenderedPieces(fields);
      var pieces := SplitOn(Rendered(rest), '&');
      assert pieces == [""] + pieces[1..];
    }
  }

  lemma RenderedPieces(fields: seq<Field>)
    requires fields != [] && '&' !in Piece(fields[0])
    requires SplitOn(Rendered(fields[1..]), '&')[0] == ""
    ensures SplitOn(Rendered(fields), '&') == ["", Piece(fields[0])] + SplitOn(Rendered(fields[1..]), '&')[1..]
  {
    hide Rendered, SplitOn, Piece;
    var piece, rest := Piece(fields[0]), Rendered(fields[1..]);
    RenderedHead(fields);
    SplitFirst("", '&', piece + rest);
    PieceThen(piece, rest);
  }

  lemma RenderedHead(fields: seq<Field>)
    requires fields != []
    ensures Rendered(fields) == "" + ['&'] + (Piece(fields[0]) + Rendered(fields[1..]))
  {
    hide Piece;
    Reassociate("&", Piece(fields[0]), Rendered(fields[1..]));
  }

  /** A piece followed by a text that starts at a separator. */
  lemma PieceThen(piece: string, rest: string)
    requires '&' !in piece && SplitOn(rest, '&')[0] == ""
    ensures SplitOn(piece + rest, '&') == [piece] + SplitOn(rest, '&')[1..]
  {
    if rest == [] {
      assert piece + rest == piece;
      SplitWithout(piece, '&');
    } else {
      assert rest[0] == '&' && SplitOn(rest, '&')[1..] == SplitOn(rest[1..], '&');
      assert piece + rest == piece + ['&'] + rest[1..];
      hide SplitOn;
      SplitFirst(piece, '&', rest[1..]);
    }
  }

  lemma SingleRenderable(name: string, value: Option<string>)
    requires PlainName(name)
    ensures Renderable(Single(name, value))
  {
  }

  lemma RenderableAppend(a: seq<Field>, b: seq<Field>)
    requires Renderable(a) && Renderable(b)
    ensures Renderable(a + b)
  {
  }

  lemma MethodsRenderable(methods: seq<string>)
    ensures Renderable(Methods(methods))
  {
  }

  lemma NamesPlain()
    ensures PlainName("seq_from") && PlainName("seq_to") && PlainName("from") && PlainName("to")
    ensures PlainName("original_method") && PlainName("reason") && PlainName("verdict") && PlainName("brain_delta")
  {
  }

  lemma FieldsRenderable(f: AuditFilter)
    ensures Renderable(Fields(f))
  {
    var one, two := Single("seq_from", Number(f.seqFrom)), Single("seq_to", Number(f.seqTo));
    var three, four, five := Single("from", f.from), Single("to", f.to), Methods(f.methods);
    var six, seven := Single("original_method", f.originalMethod), Single("reason", f.reason);
    var eight, nine := Single("verdict", f.verdict), Single("brain_delta", f.brainDelta);
    hide PlainName, Single, Methods;
    NamesPlain();
    MethodsRenderable(f.methods);
    SingleRenderable("seq_from", Number(f.seqFrom));
    SingleRenderable("seq_to", Number(f.seqTo));
    SingleRenderable("from", f.from);
    SingleRenderable("to", f.to);
    SingleRenderable("original_method", f.originalMethod);
    SingleRenderable("reason", f.reason);
    SingleRenderable("verdict", f.verdict);
    SingleRenderable("brain_delta", f.brainDelta);
    hide Renderable;
    RenderableAppend(one, two);
    RenderableAppend(one + two, three);
    RenderableAppend(one + two + three, four);
    RenderableAppend(one + two + three + four, five);
    RenderableAppend(one + two + three + four + five, six);
    RenderableAppend(one + two + three + four + five + six, seven);
    RenderableAppend(one + two + three + four + five + six + seven, eight);
    RenderableAppend(one + two + three + four + five + six + seven + eight, nine);
  }

  /** Reading a rendered filter gives back exactly its present fields. */
  lemma QueryRoundTrip(f: AuditFilter)
    ensures ParseQuery(Rendered(Fields(f))) == Some(Fields(f))
  {
    FieldsRenderable(f);
    SplitRendered(Fields(f));
  }

  // ---------------------------------------------------------------- appending, as it runs

  lemma Reassociate(a: string, b: string, c: string)
    ensures (a + b) + c == a + (b + c)
  {
  }

  lemma {:induction false} RenderedAppend(a: seq<Field>, b: seq<Field>)
    ensures Rendered(a + b) == Rendered(a) + Rendered(b)
  {
    hide Piece;
    if a == [] {
      assert a + b == b;
      assert Rendered(a) + Rendered(b) == Rendered(b);
    } else {
      RenderedAppend(a[1..], b);
      assert (a + b)[1..] == a[1..] + b && (a + b)[0] == a[0];
      Reassociate("&" + Piece(a[0]), Rendered(a[1..]), Rendered(b));
    }
  }

  lemma RenderedSingle(name: string, value: string)
    ensures Rendered([Field(name, [value])]) == "&" + name + "=" + Segment(value)
  {
    assert Segments([value]) == [Segment(value)];
    assert [Field(name, [value])][1..] == [];
  }

  lemma NumberUnescaped(n: int)
    ensures Segment(DecimalInt(n)) == DecimalInt(n)
  {
    DecimalDigits(if n < 0 then -n else n);
    EncodedUnreserved(DecimalInt(n));
  }

  method AppendOptional(path: string, name: string, value: Option<string>) returns (out: string)
    ensures out == path + Rendered(Single(name, value))
  {
    out := path;
    if value.Some? {
      var encoded := PercentEncode(value.value);
      RenderedSingle(name, value.value);
      out := out + ("&" + name + "=" + encoded);
    }
  }

  method AppendNumber(path: string, name: string, value: Option<int>) returns (out: string)
    ensures out == path + Rendered(Single(name, Number(value)))
  {
    out := path;
    if value.Some? {
      NumberUnescaped(value.value);
      RenderedSingle(name, DecimalInt(value.value));
      out := out + ("&" + name + "=" + DecimalInt(value.value));
    }
  }

  lemma {:induction false} SegmentNonEmpty(s: string)
    requires !Blank(s)
    ensures Segment(s) != ""
  {
    assert DecodeSegment("") == Some("");
  }

  lemma RenderedNothing()
    ensures Rendered([]) == ""
  {
  }

  lemma RenderedMethods(kept: seq<string>)
    ensures Rendered([Field("methods", kept)]) == "&methods=" + Join(Segments(kept), ',')
  {
    hide Segments, Join;
    assert [Field("methods", kept)][1..] == [];
    Reassociate("&", "methods=", Join(Segments(kept), ','));
  }

  method AppendMethods(path: string, methods: seq<string>) returns (out: string)
    ensures out == path + Rendered(Methods(methods))
  {
    hide Rendered, Piece, Segment;
    out := path;
    assert Rendered([]) == "" by { RenderedNothing(); }
    if |methods| > 0 {
      var kept := NonBlank(methods);
      var joined := Join(Segments(kept), ',');
      if kept != [] {
        assert kept[0] in kept;
        SegmentNonEmpty(kept[0]);
        assert Segments(kept)[0] == Segment(kept[0]);
      }
      if joined != "" {
        out := out + "&methods=";
        out := out + joined;
        RenderedMethods(kept);
        Reassociate(path, "&methods=", joined);
      }
    }
  }

  /** `AuditFilterParams::append_query`: what is appended reads back as exactly the present fields. */
  method AppendQuery(f: AuditFilter, path: string) returns (out: string)
    ensures out == path + Rendered(Fields(f))
    ensures path <= out && ParseQuery(out[|path|..]) == Some(Fields(f))
  {
    hide Rendered, Single, Methods;
    out := AppendNumber(path, "seq_from", f.seqFrom);
    ghost var done := Single("seq_from", Number(f.seqFrom));
    out := AppendNumber(out, "seq_to", f.seqTo);
    Extend(path, out, done, Single("seq_to", Number(f.seqTo)));
    done := done + Single("seq_to", Number(f.seqTo));
    out := AppendOptional(out, "from", f.from);
    Extend(path, out, done, Single("from", f.from));
    done := done + Single("from", f.from);
    out := AppendOptional(out, "to", f.to);
    Extend(path, out, done, Single("to", f.to));
    done := done + Single("to", f.to);
    out := AppendMethods(out, f.methods);
    Extend(path, out, done, Methods(f.methods));
    done := done + Methods(f.methods);
    out := AppendOptional(out, "original_method", f.originalMethod);
    Extend(path, out, done, Single("original_method", f.originalMethod));
    done := done + Single("original_method", f.originalMethod);
    out := AppendOptional(out, "reason", f.reason);
    Extend(path, out, done, Single("reason", f.reason));
    done := done + Single("reason", f.reason);
    out := AppendOptional(out, "verdict", f.verdict);
    Extend(path, out, done, Single("verdict", f.verdict));
    done := done + Single("verdict", f.verdict);
    out := AppendOptional(out, "brain_delta", f.brainDelta);
    Extend(path, out, done, Single("brain_delta", f.brainDelta));
    QueryRoundTrip(f);
    assert out[|path|..] == Rendered(Fields(f));
  }

  /** One more group of fields has been appended. */
  lemma Extend(path: string, out: string, done: seq<Field>, more: seq<Field>)
    requires out == path + Rendered(done) + Rendered(more)
    ensures out == path + Rendered(done + more)
  {
    hide Rendered;
    RenderedAppend(done, more);
    Reassociate(path, Rendered(done), Rendered(more));
  }

  lemma CountHead(encoded: string)
    requires forall c :: c in encoded ==> Safe(c)
    ensures '?' !in "audit/" + encoded + "/count"
    ensures SplitOn("audit/" + encoded + "/count", '/') == ["audit", encoded, "count"]
  {
    hide SplitOn;
    var head := "audit/" + encoded + "/count";
    SplitFirst("audit", '/', encoded + ['/'] + "count");
    SplitFirst(encoded, '/', "count");
    SplitWithout("count", '/');
    assert head == "audit" + ['/'] + (encoded + ['/'] + "count");
  }

  /** The filtered count path: the agent id stays one path segment, and the filter stays behind the `?`. */
  method AuditCountPath(agentId: string, f: AuditFilter) returns (path: string)
    ensures var head := SplitOn(path, '?')[0];
            && SplitOn(head, '/') == ["audit", Segment(agentId), "count"]
            && path == head + "?" + Rendered(Fields(f))
    ensures DecodeSegment(Segment(agentId)) == Some(agentId)
  {
    hide Rendered, Fields;
    var encoded := PercentEncode(agentId);
    ghost var head := "audit/" + encoded + "/count";
    CountHead(encoded);
    path := AppendQuery(f, "audit/" + encoded + "/count?");
    SplitFirst(head, '?', Rendered(Fields(f)));
    assert "audit/" + encoded + "/count?" == head + ['?'];
  }
}
