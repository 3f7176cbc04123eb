/**
 Finding the outermost balanced `{...}` in free text. The reference is a grammar: a span is the text of a list of
 lexemes (braces, whole string literals, other characters) that opens with a brace and whose brace height first
 returns to zero at its end. The scanner is proved to find exactly such a span, whenever there is one.
 */
module JsonSpans {
  import opened Outcomes

  // ---------------------------------------------------------------- the reference grammar

  datatype Item = Literal(c: char) | Escape(c: char)

  datatype Lexeme = Other(c: char) | OpenBrace | CloseBrace | StringLiteral(items: seq<Item>)

  predicate ItemOk(i: Item) {
    i.Literal? ==> i.c != '"' && i.c != '\\'
  }

  predicate LexemeOk(l: Lexeme) {
    match l
    case Other(c) => c != '"' && c != '{' && c != '}'
    case StringLiteral(items) => forall i :: i in items ==> ItemOk(i)
    case _ => true
  }

  function RenderItem(i: Item): string {
    match i
    case Literal(c) => [c]
    case Escape(c) => ['\\', c]
  }

  function RenderItems(items: seq<Item>): string {
    if items == [] then "" else RenderItems(items[..|items| - 1]) + RenderItem(items[|items| - 1])
  }

  function Render(l: Lexeme): (s: string)
    ensures s != ""
  {
    match l
    case Other(c) => [c]
    case OpenBrace => "{"
    case CloseBrace => "}"
    case StringLiteral(items) => "\"" + RenderItems(items) + "\""
  }

  function RenderAll(ls: seq<Lexeme>): string {
    if ls == [] then "" else RenderAll(ls[..|ls| - 1]) + Render(ls[|ls| - 1])
  }

  function Rise(l: Lexeme): int {
    if l == OpenBrace then 1 else if l == CloseBrace then -1 else 0
  }

  function Height(ls: seq<Lexeme>): int {
    if ls == [] then 0 else Height(ls[..|ls| - 1]) + Rise(ls[|ls| - 1])
  }

  /** Opens with a brace, ends at height zero, and is above zero everywhere in between. */
  ghost predicate Balanced(ls: seq<Lexeme>) {
    && ls != [] && ls[0] == OpenBrace
    && (forall l :: l in ls ==> LexemeOk(l))
    && Height(ls) == 0
    && forall k :: 0 < k < |ls| ==> Height(ls[..k]) > 0
  }

  /** `ls` is a balanced span of `text` starting at its first opening brace. */
  ghost predicate IsSpan(text: string, prefix: string, ls: seq<Lexeme>, suffix: string) {
    text == prefix + RenderAll(ls) + suffix && '{' !in prefix && Balanced(ls)
  }

  // ---------------------------------------------------------------- the scanner's state

  datatype Mode = Mode(depth: int, inString: bool, escaped: bool)

  function Advance(m: Mode, c: char): Mode {
    if m.inString then
      if m.escaped then m.(escaped := false)
      else if c == '\\' then m.(escaped := true)
      else if c == '"' then m.(inString := false)
      else m
    else if c == '"' then m.(inString := true)
    else if c == '{' then m.(depth := m.depth + 1)
    else if c == '}' then m.(depth := m.depth - 1)
    else m
  }

  function Scan(m: Mode, s: string): Mode {
    if s == "" then m else Advance(Scan(m, s[..|s| - 1]), s[|s| - 1])
  }

  /** The scan stops at a closing brace outside strings that brings the depth to zero. */
  predicate StopsAt(m: Mode, c: char) {
    !m.inString && c == '}' && m.depth == 1
  }

  ghost predicate StopIndex(m: Mode, s: string, j: nat) {
    j < |s| && StopsAt(Scan(m, s[..j]), s[j])
  }

  lemma {:induction false} ScanConcat(m: Mode, s: string, t: string)
    ensures Scan(m, s + t) == Scan(Scan(m, s), t)
  {
    if t == "" {
      assert s + t == s;
    } else {
      var n := |t| - 1;
      assert (s + t)[..|s| + n] == s + t[..n];
      ScanConcat(m, s, t[..n]);
    }
  }

  /**
   Stops in a concatenation are stops in the first part, or in the second as scanned from where the first leaves off.
   */
  lemma StopInConcat(m: Mode, s: string, t: string, j: nat)
    requires j < |s| + |t|
    ensures StopIndex(m, s + t, j) <==> if j < |s| then StopIndex(m, s, j) else StopIndex(Scan(m, s), t, j - |s|)
  {
    if j < |s| {
      assert (s + t)[..j] == s[..j];
    } else {
      assert (s + t)[..j] == s + t[..j - |s|];
      ScanConcat(m, s, t[..j - |s|]);
    }
  }

  const OUTSIDE := Mode(0, false, false)

  lemma {:induction false} ScanItems(depth: int, items: seq<Item>)
    requires forall i :: i in items ==> ItemOk(i)
    ensures Scan(Mode(depth, true, false), RenderItems(items)) == Mode(depth, true, false)
    ensures forall j: nat :: !StopIndex(Mode(depth, true, false), RenderItems(items), j)
  {
    var m := Mode(depth, true, false);
    if items != [] {
      var n := |items| - 1;
      ScanItems(depth, items[..n]);
      var last := RenderItem(items[n]);
      ScanConcat(m, RenderItems(items[..n]), last);
      assert items[n] in items;
      ScanItem(depth, items[n]);
      forall j: nat | j < |RenderItems(items)| ensures !StopIndex(m, RenderItems(items), j) {
        StopInConcat(m, RenderItems(items[..n]), last, j);
      }
    }
  }

  lemma ScanItem(depth: int, i: Item)
    requires ItemOk(i)
    ensures Scan(Mode(depth, true, false), RenderItem(i)) == Mode(depth, true, false)
    ensures forall j: nat :: !StopIndex(Mode(depth, true, false), RenderItem(i), j)
  {
    var m := Mode(depth, true, false);
    var s := RenderItem(i);
    assert s[..0] == "" && s[..1] == [s[0]];
    assert Scan(m, s[..1]) == Advance(m, s[0]);
  }

  lemma ScanOne(m: Mode, c: char)
    ensures Scan(m, [c]) == Advance(m, c)
    ensures forall j: nat :: StopIndex(m, [c], j) <==> j == 0 && StopsAt(m, c)
  {
  }

  /** Scanning one whole lexeme from outside a string moves the depth by its rise, and stops only at a last brace. */
  lemma ScanLexeme(depth: int, l: Lexeme)
    requires LexemeOk(l)
    ensures Scan(Mode(depth, false, false), Render(l)) == Mode(depth + Rise(l), false, false)
    ensures forall j: nat :: StopIndex(Mode(depth, false, false), Render(l), j) <==>
                             j == 0 && l == CloseBrace && depth == 1
  {
    var m := Mode(depth, false, false);
    match l
    case StringLiteral(items) =>
      var body := RenderItems(items);
      var inside := Mode(depth, true, false);
      ScanOne(m, '"');
      ScanOne(inside, '"');
      ScanItems(depth, items);
      ScanConcat(m, "\"", body);
      ScanConcat(m, "\"" + body, "\"");
      forall j: nat | j < |Render(l)| ensures !StopIndex(m, Render(l), j) {
        StopInConcat(m, "\"" + body, "\"", j);
        if j < 1 + |body| {
          StopInConcat(m, "\"", body, j);
        }
      }
    case Other(c) => ScanOne(m, c);
    case OpenBrace => ScanOne(m, '{');
    case CloseBrace => ScanOne(m, '}');
  }

  /** Scanning lexemes that never bring the depth to zero adds up their rises and never stops. */
  lemma {:induction false} ScanLexemes(ls: seq<Lexeme>)
    requires forall l :: l in ls ==> LexemeOk(l)
    requires forall k :: 0 < k <= |ls| ==> Height(ls[..k]) > 0
    ensures Scan(OUTSIDE, RenderAll(ls)) == Mode(Height(ls), false, false)
    ensures forall j: nat :: !StopIndex(OUTSIDE, RenderAll(ls), j)
  {
    if ls != [] {
      var n := |ls| - 1;
      var before, last := RenderAll(ls[..n]), Render(ls[n]);
      forall k | 0 < k <= n ensures Height(ls[..n][..k]) > 0 {
        assert ls[..n][..k] == ls[..k];
      }
      ScanLexemes(ls[..n]);
      ScanConcat(OUTSIDE, before, last);
      assert ls[n] in ls;
      ScanLexeme(Height(ls[..n]), ls[n]);
      assert ls[..n + 1] == ls;
      forall j: nat | j < |RenderAll(ls)| ensures !StopIndex(OUTSIDE, RenderAll(ls), j) {
        StopInConcat(OUTSIDE, before, last, j);
      }
    }
  }

  /** The scan of a balanced list stops at its last character and nowhere before. */
  lemma BalancedStopsAtEnd(ls: seq<Lexeme>)
    requires Balanced(ls)
    ensures RenderAll(ls) != ""
    ensures forall j: nat :: StopIndex(OUTSIDE, RenderAll(ls), j) <==> j == |RenderAll(ls)| - 1
  {
    var n := |ls| - 1;
    var before := ls[..n];
    assert ls == before + [ls[n]];
    assert n > 0 by {
      assert Height([OpenBrace]) == 1 by { assert [OpenBrace][..0] == []; }
      assert n == 0 ==> ls == [OpenBrace];
    }
    assert before[0] == OpenBrace && Height(before) > 0;
    assert ls[n] == CloseBrace && Height(before) == 1;
    forall k | 0 < k <= n ensures Height(before[..k]) > 0 {
      assert before[..k] == ls[..k];
    }
    ScanLexemes(before);
    ScanLexeme(1, CloseBrace);
    forall j: nat | j < |RenderAll(ls)| ensures StopIndex(OUTSIDE, RenderAll(ls), j) <==> j == |RenderAll(ls)| - 1 {
      StopInConcat(OUTSIDE, RenderAll(before), "}", j);
    }
  }

  lemma {:induction false} RenderStarts(ls: seq<Lexeme>)
    requires ls != [] && ls[0] == OpenBrace
    ensures RenderAll(ls) != "" && RenderAll(ls)[0] == '{'
  {
    if |ls| == 1 {
      assert ls[..0] == [];
    } else {
      RenderStarts(ls[..|ls| - 1]);
    }
  }

  /** Seen from the first brace, a span's end is the one place where the scan stops first. */
  lemma SpanStops(text: string, prefix: string, ls: seq<Lexeme>, suffix: string)
    requires IsSpan(text, prefix, ls, suffix)
    ensures var rest, end := text[|prefix|..], |RenderAll(ls)| - 1;
            && rest != "" && rest[0] == '{' && end >= 0
            && StopIndex(OUTSIDE, rest, end)
            && (forall j: nat :: j < end ==> !StopIndex(OUTSIDE, rest, j))
            && rest[..end + 1] == RenderAll(ls)
  {
    var span := RenderAll(ls);
    RenderStarts(ls);
    BalancedStopsAtEnd(ls);
    assert text[|prefix|..] == span + suffix;
    forall j: nat | j < |span| ensures StopIndex(OUTSIDE, span + suffix, j) <==> j == |span| - 1 {
      StopInConcat(OUTSIDE, span, suffix, j);
    }
  }

  // ---------------------------------------------------------------- the scanner

  function Find(text: string, c: char): (r: Option<nat>)
    ensures r.Some? ==> r.value < |text| && text[r.value] == c && c !in text[..r.value]
    ensures r.None? ==> c !in text
  {
    if text == "" then None
    else if text[0] == c then Some(0)
    else
      var rest := Find(text[1..], c);
      if rest.None? then None
      else
        assert text[..rest.value + 1] == [text[0]] + text[1..][..rest.value];
        Some(rest.value + 1)
  }

  /** Every span begins at the first opening brace. */
  lemma SameStart(text: string, start: nat, prefix: string, ls: seq<Lexeme>, suffix: string)
    requires start < |text| && text[start] == '{' && '{' !in text[..start]
    requires IsSpan(text, prefix, ls, suffix)
    ensures |prefix| == start
  {
    SpanStops(text, prefix, ls, suffix);
    assert text[|prefix|] == '{' && forall i :: 0 <= i < |prefix| ==> text[i] == prefix[i] && prefix[i] != '{';
    assert forall i :: 0 <= i < start ==> text[i] == text[..start][i] && text[i] != '{';
  }

  /** The first stop decides the span. */
  lemma OnlySpan(text: string, start: nat, end: nat)
    requires start < |text| && text[start] == '{' && '{' !in text[..start]
    requires StopIndex(OUTSIDE, text[start..], end)
    requires forall j: nat :: j < end ==> !StopIndex(OUTSIDE, text[start..], j)
    ensures forall prefix, ls, suffix :: IsSpan(text, prefix, ls, suffix) ==> RenderAll(ls) == text[start..][..end + 1]
  {
    forall prefix, ls, suffix | IsSpan(text, prefix, ls, suffix) ensures RenderAll(ls) == text[start..][..end + 1] {
      SameStart(text, start, prefix, ls, suffix);
      SpanStops(text, prefix, ls, suffix);
    }
  }

  lemma SnocRender(ls: seq<Lexeme>, l: Lexeme)
    ensures RenderAll(ls + [l]) == RenderAll(ls) + Render(l)
  {
  }

  lemma SnocHeight(ls: seq<Lexeme>, l: Lexeme)
    ensures Height(ls + [l]) == Height(ls) + Rise(l)
  {
  }

  /** What has been read so far, as whole lexemes and the items of a string literal still open. */
  ghost predicate Tracks(rest: string, n: nat, m: Mode, ls: seq<Lexeme>, items: seq<Item>) {
    && ReadAs(rest, n, m, ls, items)
    && Scanned(rest, n, m)
    && PartialOk(m, items)
    && Rising(ls, m.depth)
    && (n == 0 ==> ls == [] && m == OUTSIDE)
    && (n > 0 ==> ls != [])
  }

  ghost predicate ReadAs(rest: string, n: nat, m: Mode, ls: seq<Lexeme>, items: seq<Item>) {
    n <= |rest| && rest[..n] == RenderAll(ls) + Partial(m, items)
  }

  ghost predicate Scanned(rest: string, n: nat, m: Mode) {
    && n <= |rest|
    && Scan(OUTSIDE, rest[..n]) == m
    && forall j: nat :: j < n ==> !StopIndex(OUTSIDE, rest, j)
  }

  ghost predicate PartialOk(m: Mode, items: seq<Item>) {
    && (m.escaped ==> m.inString) && (!m.inString ==> items == [])
    && forall i :: i in items ==> ItemOk(i)
  }

  /** Correct lexemes from a first brace to the given height, above zero all the way. */
  ghost predicate Rising(ls: seq<Lexeme>, height: int) {
    && LexemesOk(ls) && Above(ls) && Height(ls) == height
    && (ls != [] ==> ls[0] == OpenBrace)
  }

  ghost predicate LexemesOk(ls: seq<Lexeme>) {
    forall l :: l in ls ==> LexemeOk(l)
  }

  ghost predicate Above(ls: seq<Lexeme>) {
    forall k :: 0 < k <= |ls| ==> Height(ls[..k]) > 0
  }

  ghost function Partial(m: Mode, items: seq<Item>): string {
    if !m.inString then "" else "\"" + RenderItems(items) + (if m.escaped then "\\" else "")
  }

  ghost function GrownItems(m: Mode, items: seq<Item>, c: char): seq<Item> {
    if !m.inString then []
    else if m.escaped then items + [Escape(c)]
    else if c == '\\' then items
    else if c == '"' then []
    else items + [Literal(c)]
  }

  ghost function GrownLexemes(m: Mode, ls: seq<Lexeme>, items: seq<Item>, c: char): seq<Lexeme> {
    if m.inString then if !m.escaped && c == '"' then ls + [StringLiteral(items)] else ls
    else if c == '"' then ls
    else if c == '{' then ls + [OpenBrace]
    else if c == '}' then ls + [CloseBrace]
    else ls + [Other(c)]
  }

  lemma ItemsSnoc(items: seq<Item>, i: Item)
    ensures RenderItems(items + [i]) == RenderItems(items) + RenderItem(i)
  {
  }

  lemma Glue(a: string, b: string, c: string)
    ensures a + b + c == a + (b + c)
  {
  }

  predicate Closes(m: Mode, c: char) {
    m.inString && !m.escaped && c == '"'
  }

  /** One more character of an open literal, short of its closing quotation mark. */
  lemma PartialGrows(m: Mode, items: seq<Item>, c: char)
    requires m.inString && !Closes(m, c)
    ensures Partial(m, items) + [c] == Partial(Advance(m, c), GrownItems(m, items, c))
  {
    var body := "\"" + RenderItems(items);
    if m.escaped {
      ItemsSnoc(items, Escape(c));
      Glue(body, "\\", [c]);
      assert "\\" + [c] == ['\\', c];
      Glue("\"", RenderItems(items), ['\\', c]);
    } else if c != '\\' {
      ItemsSnoc(items, Literal(c));
      Glue("\"", RenderItems(items), [c]);
    }
  }

  lemma PartialCloses(m: Mode, items: seq<Item>, c: char)
    requires Closes(m, c)
    ensures Partial(m, items) + [c] == Render(StringLiteral(items))
  {
  }

  /** The text read, one character later, is still whole lexemes and perhaps an open literal. */
  lemma TextGrows(m: Mode, ls: seq<Lexeme>, items: seq<Item>, c: char)
    requires (m.escaped ==> m.inString) && (!m.inString ==> items == [])
    ensures RenderAll(ls) + Partial(m, items) + [c]
         == RenderAll(GrownLexemes(m, ls, items, c)) + Partial(Advance(m, c), GrownItems(m, items, c))
  {
    Glue(RenderAll(ls), Partial(m, items), [c]);
    if Closes(m, c) {
      PartialCloses(m, items, c);
      SnocRender(ls, StringLiteral(items));
      assert RenderAll(ls + [StringLiteral(items)]) + "" == RenderAll(ls + [StringLiteral(items)]);
    } else if m.inString {
      PartialGrows(m, items, c);
    } else if c == '"' {
      assert "" + [c] == "\"" + RenderItems([]) + "";
    } else {
      var l := if c == '{' then OpenBrace else if c == '}' then CloseBrace else Other(c);
      SnocRender(ls, l);
      assert "" + [c] == Render(l);
      assert RenderAll(ls + [l]) + "" == RenderAll(ls + [l]);
    }
  }

  lemma RisingSnoc(ls: seq<Lexeme>, height: int, l: Lexeme)
    requires Rising(ls, height) && LexemeOk(l)
    requires ls == [] ==> l == OpenBrace
    requires height + Rise(l) > 0
    ensures Rising(ls + [l], height + Rise(l))
  {
    var grown := ls + [l];
    SnocHeight(ls, l);
    forall k | 0 < k <= |grown| ensures Height(grown[..k]) > 0 {
      if k <= |ls| {
        assert grown[..k] == ls[..k];
      } else {
        assert grown[..k] == grown;
      }
    }
  }

  lemma LexemesGrow(m: Mode, ls: seq<Lexeme>, items: seq<Item>, c: char)
    requires Rising(ls, m.depth) && PartialOk(m, items)
    requires ls == [] ==> c == '{' && !m.inString
    requires !StopsAt(m, c)
    ensures var grown := GrownLexemes(m, ls, items, c); grown != [] && Rising(grown, Advance(m, c).depth)
  {
    if ls != [] {
      assert ls[..|ls|] == ls;
    }
    if m.inString {
      if Closes(m, c) {
        RisingSnoc(ls, m.depth, StringLiteral(items));
      }
    } else if c == '{' {
      RisingSnoc(ls, m.depth, OpenBrace);
    } else if c == '}' {
      RisingSnoc(ls, m.depth, CloseBrace);
    } else if c != '"' {
      RisingSnoc(ls, m.depth, Other(c));
    }
  }

  lemma ReadGrows(rest: string, n: nat, m: Mode, ls: seq<Lexeme>, items: seq<Item>)
    requires ReadAs(rest, n, m, ls, items) && n < |rest| && PartialOk(m, items)
    ensures ReadAs(rest, n + 1, Advance(m, rest[n]), GrownLexemes(m, ls, items, rest[n]), GrownItems(m, items, rest[n]))
  {
    assert rest[..n + 1] == rest[..n] + [rest[n]];
    TextGrows(m, ls, items, rest[n]);
  }

  lemma ItemsGrow(m: Mode, items: seq<Item>, c: char)
    requires PartialOk(m, items)
    ensures PartialOk(Advance(m, c), GrownItems(m, items, c))
  {
  }

  /** Reading one more character, other than the one that ends the span, keeps track. */
  lemma TracksStep(rest: string, n: nat, m: Mode, ls: seq<Lexeme>, items: seq<Item>, next: Mode)
    requires Tracks(rest, n, m, ls, items) && n < |rest| && rest[0] == '{'
    requires !StopsAt(m, rest[n]) && Scanned(rest, n + 1, next) && next == Advance(m, rest[n])
    ensures Tracks(rest, n + 1, next, GrownLexemes(m, ls, items, rest[n]), GrownItems(m, items, rest[n]))
  {
    ReadGrows(rest, n, m, ls, items);
    LexemesGrow(m, ls, items, rest[n]);
    ItemsGrow(m, items, rest[n]);
  }

  /** At the closing brace that ends it, what was read is a balanced span. */
  lemma TracksStop(rest: string, n: nat, m: Mode, ls: seq<Lexeme>, items: seq<Item>)
    requires Tracks(rest, n, m, ls, items) && n < |rest| && rest[0] == '{'
    requires StopsAt(m, rest[n])
    ensures Balanced(ls + [CloseBrace])
    ensures RenderAll(ls + [CloseBrace]) == rest[..n + 1]
  {
    var all := ls + [CloseBrace];
    assert rest[..n + 1] == rest[..n] + "}";
    SnocRender(ls, CloseBrace);
    SnocHeight(ls, CloseBrace);
    forall k | 0 < k < |all| ensures Height(all[..k]) > 0 {
      assert all[..k] == ls[..k];
    }
  }

  lemma TracksNothing(rest: string)
    ensures Tracks(rest, 0, OUTSIDE, [], [])
  {
  }

  lemma ScannedShrinks(rest: string, n: nat, m: Mode)
    requires Scanned(rest, n, m) && n > 0
    ensures var before := Scan(OUTSIDE, rest[..n - 1]);
            Scanned(rest, n - 1, before) && !StopsAt(before, rest[n - 1]) && m == Advance(before, rest[n - 1])
  {
    assert rest[..n][..n - 1] == rest[..n - 1];
    assert !StopIndex(OUTSIDE, rest, n - 1);
  }

  /** Any text read without a stop is whole lexemes and perhaps an open literal. */
  lemma {:induction false} Parse(rest: string, n: nat, m: Mode) returns (ls: seq<Lexeme>, items: seq<Item>)
    requires Scanned(rest, n, m) && rest != "" && rest[0] == '{'
    ensures Tracks(rest, n, m, ls, items)
    decreases n
  {
    if n == 0 {
      TracksNothing(rest);
      ls, items := [], [];
    } else {
      ScannedShrinks(rest, n, m);
      var before, c := Scan(OUTSIDE, rest[..n - 1]), rest[n - 1];
      var ls', items' := Parse(rest, n - 1, before);
      TracksStep(rest, n - 1, before, ls', items', m);
      ls, items := GrownLexemes(before, ls', items', c), GrownItems(before, items', c);
    }
  }

  /** The answer once the scan has stopped: the span is there, and it is the only one. */
  lemma StopIsAnswer(text: string, start: nat, end: nat)
    requires start < |text| && text[start] == '{' && '{' !in text[..start]
    requires StopIndex(OUTSIDE, text[start..], end)
    requires forall j: nat :: j < end ==> !StopIndex(OUTSIDE, text[start..], j)
    ensures IsAnswer(text, Some(text[start..start + end + 1]))
  {
    var rest := text[start..];
    var m := Scan(OUTSIDE, rest[..end]);
    var ls, items := Parse(rest, end, m);
    TracksStop(rest, end, m, ls, items);
    OnlySpan(text, start, end);
    SpanText(text, start, end + 1);
    assert IsSpan(text, text[..start], ls + [CloseBrace], text[start + end + 1..]);
  }

  lemma SpanText(text: string, start: nat, length: nat)
    requires start + length <= |text|
    ensures text[start..start + length] == text[start..][..length]
    ensures text == text[..start] + text[start..][..length] + text[start + length..]
  {
  }

  /** The one right answer: the text of the balanced span if the text has one, nothing otherwise. */
  ghost predicate IsAnswer(text: string, r: Option<string>) {
    && (r.Some? ==> exists prefix, ls, suffix :: IsSpan(text, prefix, ls, suffix) && r.value == RenderAll(ls))
    && (forall prefix, ls, suffix :: IsSpan(text, prefix, ls, suffix) ==> r == Some(RenderAll(ls)))
  }

  lemma ScannedNothing(rest: string)
    ensures Scanned(rest, 0, OUTSIDE)
  {
  }

  lemma ScannedGrows(rest: string, n: nat, m: Mode)
    requires Scanned(rest, n, m) && n < |rest|
    ensures StopIndex(OUTSIDE, rest, n) <==> StopsAt(m, rest[n])
    ensures !StopsAt(m, rest[n]) ==> Scanned(rest, n + 1, Advance(m, rest[n]))
  {
    assert rest[..n + 1][..n] == rest[..n];
  }

  method OutermostObjectSpan(text: string) returns (r: Option<string>)
    ensures IsAnswer(text, r)
  {
    hide Scan, StopIndex, IsSpan, IsAnswer;
    var found := Find(text, '{');
    if found.None? {
      NoBraceIsAnswer(text);
      return None;
    }
    var start := found.value;
    ghost var rest := text[start..];
    ScannedNothing(rest);
    var depth, inString, escaped := 0, false, false;
    for index := start to |text|
      invariant Scanned(rest, index - start, Mode(depth, inString, escaped))
    {
      var c := text[index];
      ScannedGrows(rest, index - start, Mode(depth, inString, escaped));
      if inString {
        if escaped {
          escaped := false;
        } else if c == '\\' {
          escaped := true;
        } else if c == '"' {
          inString := false;
        }
        continue;
      }
      if c == '"' {
        inString := true;
      } else if c == '{' {
        depth := depth + 1;
      } else if c == '}' {
        depth := depth - 1;
        if depth == 0 {
          StopIsAnswer(text, start, index - start);
          return Some(text[start..index + 1]);
        }
      }
    }
    NoStopIsAnswer(text, start);
    r := None;
  }

  lemma NoBraceIsAnswer(text: string)
    requires '{' !in text
    ensures IsAnswer(text, None)
  {
    forall prefix, ls, suffix ensures !IsSpan(text, prefix, ls, suffix) {
      NoBraceNoSpan(text, prefix, ls, suffix);
    }
  }

  lemma NoStopIsAnswer(text: string, start: nat)
    requires start < |text| && text[start] == '{' && '{' !in text[..start]
    requires forall j: nat :: j < |text| - start ==> !StopIndex(OUTSIDE, text[start..], j)
    ensures IsAnswer(text, None)
  {
    forall prefix, ls, suffix ensures !IsSpan(text, prefix, ls, suffix) {
      NoStopNoSpan(text, start, prefix, ls, suffix);
    }
  }

  lemma NoBraceNoSpan(text: string, prefix: string, ls: seq<Lexeme>, suffix: string)
    requires '{' !in text
    ensures !IsSpan(text, prefix, ls, suffix)
  {
    if Balanced(ls) {
      RenderStarts(ls);
      var whole := prefix + RenderAll(ls) + suffix;
      assert whole[|prefix|] == '{';
    }
  }

  lemma NoStopNoSpan(text: string, start: nat, prefix: string, ls: seq<Lexeme>, suffix: string)
    requires start < |text| && text[start] == '{' && '{' !in text[..start]
    requires forall j: nat :: j < |text| - start ==> !StopIndex(OUTSIDE, text[start..], j)
    ensures !IsSpan(text, prefix, ls, suffix)
  {
    if IsSpan(text, prefix, ls, suffix) {
      SameStart(text, start, prefix, ls, suffix);
      SpanStops(text, prefix, ls, suffix);
      assert false;
    }
  }
}
