/**
 Printing JSON values (RFC 8259, sections 2 to 7) and recovering a printed object from a reply. Separators and
 padding are a parameter, so every compact or indented layout is covered.
 */
module JsonText {
  import opened Outcomes
  import opened Decimals
  import opened JsonSpans

  type Digits = s: string | forall c :: c in s ==> '0' <= c <= '9' witness ""

  datatype Number = Number(negative: bool, whole: nat, fraction: Digits, exponent: Option<int>)

  datatype Json =
    | JNull
    | JBool(b: bool)
    | JNumber(n: Number)
    | JString(s: string)
    | JArray(items: seq<Json>)
    | JObject(members: seq<Member>)

  datatype Member = Member(key: string, value: Json)

  /**
   What to write after a comma or colon, inside brackets at a given nesting depth, and for a character of a string.
   */
  datatype Style = Style(pad: nat -> string, comma: nat -> string, colon: string, escape: char -> string)

  predicate PlainText(s: string) {
    forall c :: c in s ==> c != '"' && c != '{' && c != '}'
  }

  ghost predicate StyleOk(st: Style) {
    && (forall d :: PlainText(st.pad(d)) && PlainText(st.comma(d))) && PlainText(st.colon)
    && forall c :: IsLiteralBody(st.escape(c))
  }

  /** Text that can stand between the quotation marks of a literal: escape pairs and plain characters. */
  ghost predicate IsLiteralBody(s: string) {
    exists items :: (forall i :: i in items ==> ItemOk(i)) && RenderItems(items) == s
  }

  // ---------------------------------------------------------------- printing

  function Hex(d: nat): char
    requires d < 16
  {
    "0123456789abcdef"[d]
  }

  /**
   One choice of section 7: quotation mark, reverse solidus and control characters escaped, everything else as it is.
   */
  function EscapeChar(c: char): string {
    if c == '"' then "\\\""
    else if c == '\\' then "\\\\"
    else if c == '\n' then "\\n"
    else if c == '\r' then "\\r"
    else if c == '\t' then "\\t"
    else if c as int < 32 then "\\u00" + [Hex(c as int / 16), Hex(c as int % 16)]
    else [c]
  }

  function EscapeText(s: string, st: Style): string {
    if s == "" then "" else EscapeText(s[..|s| - 1], st) + st.escape(s[|s| - 1])
  }

  function PrintString(s: string, st: Style): string {
    "\"" + EscapeText(s, st) + "\""
  }

  function PrintNumber(n: Number): string {
    (if n.negative then "-" else "") + Decimal(n.whole)
    + (if n.fraction == "" then "" else "." + n.fraction)
    + (match n.exponent
       case None => ""
       case Some(e) => if e < 0 then "e-" + Decimal(-e) else "e+" + Decimal(e))
  }

  function Print(v: Json, st: Style, depth: nat): string
    decreases v, 0
  {
    match v
    case JNull => "null"
    case JBool(b) => if b then "true" else "false"
    case JNumber(n) => PrintNumber(n)
    case JString(s) => PrintString(s, st)
    case JArray(items) => "[" + st.pad(depth + 1) + PrintItems(items, st, depth + 1) + st.pad(depth) + "]"
    case JObject(members) => "{" + PrintBody(members, st, depth) + "}"
  }

  function PrintBody(members: seq<Member>, st: Style, depth: nat): string
    decreases members, 2
  {
    st.pad(depth + 1) + PrintMembers(members, st, depth + 1) + st.pad(depth)
  }

  function PrintItems(items: seq<Json>, st: Style, depth: nat): string
    decreases items, 1
  {
    if items == [] then ""
    else
      PrintItems(items[..|items| - 1], st, depth)
      + (if |items| > 1 then "," + st.comma(depth) else "")
      + Print(items[|items| - 1], st, depth)
  }

  function PrintMembers(members: seq<Member>, st: Style, depth: nat): string
    decreases members, 1
  {
    if members == [] then ""
    else
      var last := members[|members| - 1];
      PrintMembers(members[..|members| - 1], st, depth)
      + (if |members| > 1 then "," + st.comma(depth) else "")
      + PrintString(last.key, st) + ":" + st.colon + Print(last.value, st, depth)
  }

  // ---------------------------------------------------------------- printed text as lexemes

  /** Height returns to zero and is never below it. */
  ghost predicate Nested(ls: seq<Lexeme>) {
    LexemesOk(ls) && Height(ls) == 0 && forall k :: 0 <= k <= |ls| ==> Height(ls[..k]) >= 0
  }

  ghost predicate IsNestedText(s: string) {
    exists ls :: Nested(ls) && RenderAll(ls) == s
  }

  lemma {:induction false} RenderConcat(a: seq<Lexeme>, b: seq<Lexeme>)
    ensures RenderAll(a + b) == RenderAll(a) + RenderAll(b)
  {
    if b == [] {
      assert a + b == a;
    } else {
      var before, last := b[..|b| - 1], b[|b| - 1];
      assert a + b == (a + before) + [last] && b == before + [last];
      RenderConcat(a, before);
      SnocRender(a + before, last);
      Glue(RenderAll(a), RenderAll(before), Render(last));
      assert RenderAll(a + b) == RenderAll(a) + (RenderAll(before) + Render(last));
    }
  }

  lemma {:induction false} HeightConcat(a: seq<Lexeme>, b: seq<Lexeme>)
    ensures Height(a + b) == Height(a) + Height(b)
  {
    if b == [] {
      assert a + b == a;
    } else {
      var before, last := b[..|b| - 1], b[|b| - 1];
      assert a + b == (a + before) + [last] && b == before + [last];
      HeightConcat(a, before);
      SnocHeight(a + before, last);
    }
  }

  lemma NestedConcat(a: seq<Lexeme>, b: seq<Lexeme>)
    requires Nested(a) && Nested(b)
    ensures Nested(a + b)
  {
    HeightConcat(a, b);
    forall k | 0 <= k <= |a + b| ensures Height((a + b)[..k]) >= 0 {
      if k <= |a| {
        assert (a + b)[..k] == a[..k];
      } else {
        assert (a + b)[..k] == a + b[..k - |a|];
        HeightConcat(a, b[..k - |a|]);
      }
    }
  }

  lemma TextConcat(s: string, t: string)
    requires IsNestedText(s) && IsNestedText(t)
    ensures IsNestedText(s + t)
  {
    var a :| Nested(a) && RenderAll(a) == s;
    var b :| Nested(b) && RenderAll(b) == t;
    NestedConcat(a, b);
    RenderConcat(a, b);
  }

  lemma OneLexeme(l: Lexeme)
    requires LexemeOk(l) && Rise(l) == 0
    ensures IsNestedText(Render(l))
  {
    var ls := [l];
    assert ls == [] + [l] && ls[..0] == [] && ls[..1] == ls;
    SnocRender([], l);
    SnocHeight([], l);
    assert RenderAll(ls) == "" + Render(l) == Render(l);
    assert Nested(ls);
  }

  lemma NothingIsNested()
    ensures IsNestedText("")
  {
    assert Nested([]) && RenderAll([]) == "";
  }

  lemma {:induction false} PlainIsNested(s: string)
    requires PlainText(s)
    ensures IsNestedText(s)
  {
    hide IsNestedText;
    if s == "" {
      NothingIsNested();
    } else {
      var n := |s| - 1;
      assert forall c :: c in s[..n] ==> c in s;
      assert s[n] in s;
      PlainIsNested(s[..n]);
      OneLexeme(Other(s[n]));
      assert s == s[..n] + [s[n]];
      TextConcat(s[..n], [s[n]]);
    }
  }

  ghost function CharItems(c: char): seq<Item> {
    if c == '"' || c == '\\' then [Escape(c)]
    else if c == '\n' then [Escape('n')]
    else if c == '\r' then [Escape('r')]
    else if c == '\t' then [Escape('t')]
    else if c as int < 32 then
      [Escape('u'), Literal('0'), Literal('0'), Literal(Hex(c as int / 16)), Literal(Hex(c as int % 16))]
    else [Literal(c)]
  }

  lemma {:induction false} ItemsConcat(a: seq<Item>, b: seq<Item>)
    ensures RenderItems(a + b) == RenderItems(a) + RenderItems(b)
  {
    if b == [] {
      assert a + b == a;
    } else {
      var before, last := b[..|b| - 1], b[|b| - 1];
      assert a + b == (a + before) + [last];
      ItemsConcat(a, before);
      ItemsSnoc(a + before, last);
      Glue(RenderItems(a), RenderItems(before), RenderItem(last));
    }
  }

  lemma OneItem(i: Item)
    ensures RenderItems([i]) == RenderItem(i)
  {
  }

  lemma UnicodeEscape(h: char, l: char)
    ensures RenderItems([Escape('u'), Literal('0'), Literal('0'), Literal(h), Literal(l)]) == "\\u00" + [h, l]
  {
    var u := [Escape('u')];
    OneItem(Escape('u'));
    ItemsSnoc(u, Literal('0'));
    ItemsSnoc(u + [Literal('0')], Literal('0'));
    ItemsSnoc(u + [Literal('0')] + [Literal('0')], Literal(h));
    ItemsSnoc(u + [Literal('0')] + [Literal('0')] + [Literal(h)], Literal(l));
    assert u + [Literal('0')] + [Literal('0')] + [Literal(h)] + [Literal(l)]
        == [Escape('u'), Literal('0'), Literal('0'), Literal(h), Literal(l)];
  }

  lemma CharItemsRender(c: char)
    ensures RenderItems(CharItems(c)) == EscapeChar(c)
    ensures forall i :: i in CharItems(c) ==> ItemOk(i)
  {
    hide RenderItems;
    if |CharItems(c)| == 5 {
      UnicodeEscape(Hex(c as int / 16), Hex(c as int % 16));
      HexIsPlain(c as int / 16);
      HexIsPlain(c as int % 16);
    } else {
      OneItem(CharItems(c)[0]);
    }
  }

  lemma HexIsPlain(d: nat)
    requires d < 16
    ensures ItemOk(Literal(Hex(d)))
  {
  }

  lemma JoinBodies(s: string, t: string)
    requires IsLiteralBody(s) && IsLiteralBody(t)
    ensures IsLiteralBody(s + t)
  {
    var a :| (forall i :: i in a ==> ItemOk(i)) && RenderItems(a) == s;
    var b :| (forall i :: i in b ==> ItemOk(i)) && RenderItems(b) == t;
    ItemsConcat(a, b);
    assert forall i :: i in a + b ==> ItemOk(i);
  }

  /** Escaping, however its characters are written, leaves no quotation mark that could end the literal early. */
  lemma {:induction false} EscapedIsBody(s: string, st: Style)
    requires StyleOk(st)
    ensures IsLiteralBody(EscapeText(s, st))
  {
    if s == "" {
      assert RenderItems([]) == "";
    } else {
      EscapedIsBody(s[..|s| - 1], st);
      JoinBodies(EscapeText(s[..|s| - 1], st), st.escape(s[|s| - 1]));
    }
  }

  lemma BodyIsNestedLiteral(body: string)
    requires IsLiteralBody(body)
    ensures IsNestedText("\"" + body + "\"")
  {
    var items :| (forall i :: i in items ==> ItemOk(i)) && RenderItems(items) == body;
    OneLexeme(StringLiteral(items));
  }

  lemma StringIsNested(s: string, st: Style)
    requires StyleOk(st)
    ensures IsNestedText(PrintString(s, st))
  {
    EscapedIsBody(s, st);
    BodyIsNestedLiteral(EscapeText(s, st));
  }

  /** The choice above is one that every style may make. */
  lemma EscapeCharIsBody(c: char)
    ensures IsLiteralBody(EscapeChar(c))
  {
    CharItemsRender(c);
  }

  lemma OneItemIsBody(item: Item)
    requires ItemOk(item)
    ensures IsLiteralBody(RenderItem(item))
  {
    OneItem(item);
    assert forall i :: i in [item] ==> ItemOk(i);
  }

  /** So is every form of section 7: a reverse solidus with any one character, or with `u` and four digits. */
  lemma EscapeFormsAreBodies(c: char, a: char, b: char, d: char, e: char)
    requires forall x :: x in [a, b, d, e] ==> x != '"' && x != '\\'
    ensures IsLiteralBody(['\\', c])
    ensures IsLiteralBody(['\\', 'u'] + [a] + [b] + [d] + [e])
  {
    hide IsLiteralBody;
    assert a in [a, b, d, e] && b in [a, b, d, e] && d in [a, b, d, e] && e in [a, b, d, e];
    OneItemIsBody(Escape(c));
    OneItemIsBody(Escape('u'));
    OneItemIsBody(Literal(a));
    OneItemIsBody(Literal(b));
    OneItemIsBody(Literal(d));
    OneItemIsBody(Literal(e));
    JoinBodies(['\\', 'u'], [a]);
    JoinBodies(['\\', 'u'] + [a], [b]);
    JoinBodies(['\\', 'u'] + [a] + [b], [d]);
    JoinBodies(['\\', 'u'] + [a] + [b] + [d], [e]);
  }

  lemma NumberIsPlain(n: Number)
    ensures PlainText(PrintNumber(n))
  {
  }

  /** Braces around nested text are nested, and indeed balanced. */
  lemma Braced(s: string) returns (ls: seq<Lexeme>)
    requires IsNestedText(s)
    ensures Balanced(ls) && Nested(ls) && RenderAll(ls) == "{" + s + "}"
  {
    var inner :| Nested(inner) && RenderAll(inner) == s;
    ls := [OpenBrace] + inner + [CloseBrace];
    BracedText(inner);
    BracedHeights(inner);
  }

  lemma BracedText(inner: seq<Lexeme>)
    ensures RenderAll([OpenBrace] + inner + [CloseBrace]) == "{" + RenderAll(inner) + "}"
  {
    assert RenderAll([OpenBrace]) == "{" by {
      SnocRender([], OpenBrace);
      assert [] + [OpenBrace] == [OpenBrace];
      assert "" + "{" == "{";
    }
    RenderConcat([OpenBrace], inner);
    SnocRender([OpenBrace] + inner, CloseBrace);
  }

  lemma BracedHeights(inner: seq<Lexeme>)
    requires Nested(inner)
    ensures var ls := [OpenBrace] + inner + [CloseBrace];
            Height(ls) == 0 && forall k :: 0 < k < |ls| ==> Height(ls[..k]) > 0
    ensures var ls := [OpenBrace] + inner + [CloseBrace];
            forall k :: 0 <= k <= |ls| ==> Height(ls[..k]) >= 0
  {
    var ls := [OpenBrace] + inner + [CloseBrace];
    SnocHeight([], OpenBrace);
    assert [] + [OpenBrace] == [OpenBrace];
    HeightConcat([OpenBrace], inner);
    SnocHeight([OpenBrace] + inner, CloseBrace);
    forall k | 0 < k < |ls| ensures Height(ls[..k]) > 0 {
      assert ls[..k] == [OpenBrace] + inner[..k - 1];
      HeightConcat([OpenBrace], inner[..k - 1]);
    }
    assert ls[..|ls|] == ls && ls[..0] == [];
  }

  lemma {:induction false} PrintIsNested(v: Json, st: Style, depth: nat)
    requires StyleOk(st)
    ensures IsNestedText(Print(v, st, depth))
    decreases v, 0
  {
    match v
    case JNull => PlainIsNested("null");
    case JBool(b) => PlainIsNested(if b then "true" else "false");
    case JNumber(n) => NumberIsPlain(n); PlainIsNested(PrintNumber(n));
    case JString(s) => StringIsNested(s, st);
    case JArray(items) => ArrayIsNested(items, st, depth);
    case JObject(members) =>
      BodyIsNested(members, st, depth);
      var ls := Braced(PrintBody(members, st, depth));
  }

  lemma {:induction false} ArrayIsNested(items: seq<Json>, st: Style, depth: nat)
    requires StyleOk(st)
    ensures IsNestedText("[" + st.pad(depth + 1) + PrintItems(items, st, depth + 1) + st.pad(depth) + "]")
    decreases items, 2
  {
    var front, text := "[" + st.pad(depth + 1), PrintItems(items, st, depth + 1);
    ItemsAreNested(items, st, depth + 1);
    PlainIsNested(front);
    PlainIsNested(st.pad(depth));
    PlainIsNested("]");
    TextConcat(front, text);
    TextConcat(front + text, st.pad(depth));
    TextConcat(front + text + st.pad(depth), "]");
  }

  lemma {:induction false} BodyIsNested(members: seq<Member>, st: Style, depth: nat)
    requires StyleOk(st)
    ensures IsNestedText(PrintBody(members, st, depth))
    decreases members, 2
  {
    MembersAreNested(members, st, depth + 1);
    PlainIsNested(st.pad(depth + 1));
    PlainIsNested(st.pad(depth));
    TextConcat(st.pad(depth + 1), PrintMembers(members, st, depth + 1));
    TextConcat(st.pad(depth + 1) + PrintMembers(members, st, depth + 1), st.pad(depth));
  }

  lemma {:induction false} ItemsAreNested(items: seq<Json>, st: Style, depth: nat)
    requires StyleOk(st)
    ensures IsNestedText(PrintItems(items, st, depth))
    decreases items, 1
  {
    if items == [] {
      PlainIsNested("");
    } else {
      var before, last := items[..|items| - 1], items[|items| - 1];
      var separator := if |items| > 1 then "," + st.comma(depth) else "";
      ItemsAreNested(before, st, depth);
      PrintIsNested(last, st, depth);
      PlainIsNested(separator);
      TextConcat(PrintItems(before, st, depth), separator);
      TextConcat(PrintItems(before, st, depth) + separator, Print(last, st, depth));
    }
  }

  lemma {:induction false} MembersAreNested(members: seq<Member>, st: Style, depth: nat)
    requires StyleOk(st)
    ensures IsNestedText(PrintMembers(members, st, depth))
    decreases members, 1
  {
    hide IsNestedText, IsLiteralBody, PrintString;
    if members == [] {
      PlainIsNested("");
    } else {
      var before, last := members[..|members| - 1], members[|members| - 1];
      MembersAreNested(before, st, depth);
      PrintIsNested(last.value, st, depth);
      StringIsNested(last.key, st);
      MemberAppended(PrintMembers(before, st, depth), if |members| > 1 then "," + st.comma(depth) else "",
                     PrintString(last.key, st), st.colon, Print(last.value, st, depth));
    }
  }

  lemma MemberAppended(before: string, separator: string, key: string, colon: string, value: string)
    requires IsNestedText(before) && PlainText(separator) && IsNestedText(key) && PlainText(colon)
        && IsNestedText(value)
    ensures IsNestedText(before + separator + key + ":" + colon + value)
  {
    PlainIsNested(separator);
    PlainIsNested(":");
    PlainIsNested(colon);
    TextConcat(before, separator);
    TextConcat(before + separator, key);
    TextConcat(before + separator + key, ":");
    TextConcat(before + separator + key + ":", colon);
    TextConcat(before + separator + key + ":" + colon, value);
  }

  // ---------------------------------------------------------------- the round trip

  /**
   Whatever text surrounds it, as long as no brace opens before it, a printed object is the one balanced span: a
   scanner with the one right answer returns exactly the printed text.
   */
  lemma PrintedObjectIsFound(members: seq<Member>, st: Style, prefix: string, suffix: string, r: Option<string>)
    requires StyleOk(st) && '{' !in prefix
    requires IsAnswer(prefix + Print(JObject(members), st, 0) + suffix, r)
    ensures r == Some(Print(JObject(members), st, 0))
  {
    hide Print, RenderAll, Balanced, StyleOk;
    var ls := PrintedObjectSpan(members, st);
    assert IsSpan(prefix + Print(JObject(members), st, 0) + suffix, prefix, ls, suffix);
  }

  lemma PrintedObjectSpan(members: seq<Member>, st: Style) returns (ls: seq<Lexeme>)
    requires StyleOk(st)
    ensures Balanced(ls) && RenderAll(ls) == Print(JObject(members), st, 0)
  {
    BodyIsNested(members, st, 0);
    ls := Braced(PrintBody(members, st, 0));
  }

  /** The scanner applied: print an object into any reply and scan it out again. */
  method FindPrinted(members: seq<Member>, st: Style, prefix: string, suffix: string) returns (r: Option<string>)
    requires StyleOk(st) && '{' !in prefix
    ensures r == Some(Print(JObject(members), st, 0))
  {
    r := OutermostObjectSpan(prefix + Print(JObject(members), st, 0) + suffix);
    PrintedObjectIsFound(members, st, prefix, suffix, r);
  }

  // ---------------------------------------------------------------- extraction

  datatype ExtractError = NotAnObject | NothingParsable

  /** The standard library's decoder and the fence pattern, as far as extraction uses them. */
  datatype Decoder = Decoder(loads: string -> Option<Json>, strip: string -> string, fenced: string -> Option<string>)

  predicate ParsesToObject(d: Decoder, text: Option<string>) {
    text.Some? && d.loads(text.value).Some? && d.loads(text.value).value.JObject?
  }

  /**
   The whole reply, then a fenced block, then the balanced span; a whole reply that is other JSON is refused at once.
   */
  method ExtractJsonObject(text: string, d: Decoder) returns (r: Result<Json, ExtractError>)
    ensures r.Ok? ==> r.value.JObject?
    ensures d.strip(text) != "" && d.loads(d.strip(text)).Some? ==>
              var whole := d.loads(d.strip(text)).value;
              r == if whole.JObject? then Ok(whole) else Err(NotAnObject)
    ensures !(d.strip(text) != "" && d.loads(d.strip(text)).Some?) && ParsesToObject(d, d.fenced(text)) ==>
              r == Ok(d.loads(d.fenced(text).value).value)
    ensures !(d.strip(text) != "" && d.loads(d.strip(text)).Some?) && !ParsesToObject(d, d.fenced(text)) ==>
              exists span :: IsAnswer(text, span) &&
                r == if ParsesToObject(d, span) then Ok(d.loads(span.value).value) else Err(NothingParsable)
  {
    var stripped := d.strip(text);
    if stripped != "" {
      var parsed := d.loads(stripped);
      if parsed.Some? {
        return if parsed.value.JObject? then Ok(parsed.value) else Err(NotAnObject);
      }
    }
    var fenced := d.fenced(text);
    if ParsesToObject(d, fenced) {
      return Ok(d.loads(fenced.value).value);
    }
    var span := OutermostObjectSpan(text);
    if ParsesToObject(d, span) {
      return Ok(d.loads(span.value).value);
    }
    r := Err(NothingParsable);
  }
}
