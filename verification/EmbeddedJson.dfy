/**
 * The scanner that pulls the single JSON object out of a model's prose answer
 * (extractSingleEmbeddedJsonObjectSource).
 */
module EmbeddedJson {
  import opened Text
  import opened JsonText

  // ---------- the scanner as an automaton over characters ----------

  /** `current` is the text of the object being collected; `sources` are the finished ones. */
  datatype Scan = Scan(depth: nat, brackets: nat, inString: bool, escaped: bool,
                       current: Option<string>, sources: seq<string>)

  const START := Scan(0, 0, false, false, None, [])

  function Extend(current: Option<string>, t: string): Option<string> {
    match current
    case None => None
    case Some(s) => Some(s + t)
  }

  function Feed(s: Scan, c: char): Scan {
    var t := s.(current := Extend(s.current, [c]));
    if s.inString then
      if s.escaped then t.(escaped := false)
      else if c == '\\' then t.(escaped := true)
      else if c == '"' then t.(inString := false)
      else t
    else if c == '"' then t.(inString := true)
    else if s.depth == 0 && c == '[' then t.(brackets := s.brackets + 1)
    else if s.depth == 0 && c == ']' then t.(brackets := if s.brackets == 0 then 0 else s.brackets - 1)
    else if c == '{' then
      t.(depth := s.depth + 1, current := if s.depth == 0 && s.brackets == 0 then Some("{") else t.current)
    else if c == '}' && s.depth > 0 then
      if s.depth == 1 && t.current.Some? then
        t.(depth := 0, current := None, sources := s.sources + [t.current.value])
      else t.(depth := s.depth - 1)
    else t
  }

  function Run(s: Scan, text: string): Scan {
    if text == "" then s else Feed(Run(s, text[..|text| - 1]), text[|text| - 1])
  }

  function Sources(text: string): seq<string> {
    Run(START, text).sources
  }

  function Extracted(text: string): Option<string> {
    var found := Sources(text);
    if |found| == 1 then Some(found[0]) else None
  }

  lemma {:induction false} RunConcat(s: Scan, a: string, b: string)
    ensures Run(s, a + b) == Run(Run(s, a), b)
    decreases |b|
  {
    if b == "" {
      assert a + b == a;
    } else {
      var front := b[..|b| - 1];
      assert (a + b)[..|a + b| - 1] == a + front;
      RunConcat(s, a, front);
    }
  }

  // ---------- the index loop ----------

  lemma RunIndex(text: string, i: nat, start: nat)
    requires start <= i < |text|
    ensures Run(START, text[..i + 1]) == Feed(Run(START, text[..i]), text[i])
    ensures text[start..i + 1] == text[start..i] + [text[i]]
    ensures text[i..i + 1] == [text[i]]
  {
    assert text[..i + 1][..i] == text[..i];
  }

  /** The loop with its index, start offset and slices computes what the automaton collects. */
  method ExtractSingleEmbeddedJsonObjectSource(text: string) returns (r: Option<string>)
    ensures r == Extracted(text)
  {
    var sources: seq<string> := [];
    var objectStart: Option<nat> := None;
    var depth, bracketDepth: nat := 0, 0;
    var inString, escaped := false, false;
    var index := 0;
    assert text[..0] == "";
    while index < |text|
      invariant index <= |text|
      invariant objectStart.Some? ==> objectStart.value < index && depth > 0
      invariant Run(START, text[..index]) ==
                Scan(depth, bracketDepth, inString, escaped,
                     if objectStart.Some? then Some(text[objectStart.value..index]) else None, sources)
    {
      var character := text[index];
      RunIndex(text, index, if objectStart.Some? then objectStart.value else index);
      index := index + 1;
      if inString {
        if escaped {
          escaped := false;
          continue;
        }
        if character == '\\' {
          escaped := true;
          continue;
        }
        if character == '"' {
          inString := false;
        }
        continue;
      }
      if character == '"' {
        inString := true;
        continue;
      }
      if depth == 0 && character == '[' {
        bracketDepth := bracketDepth + 1;
        continue;
      }
      if depth == 0 && character == ']' {
        bracketDepth := if bracketDepth - 1 < 0 then 0 else bracketDepth - 1;
        continue;
      }
      if character == '{' {
        if depth == 0 && bracketDepth == 0 {
          objectStart := Some(index - 1);
        }
        depth := depth + 1;
        continue;
      }
      if character == '}' {
        if depth == 0 {
          continue;
        }
        depth := depth - 1;
        if depth == 0 && objectStart.Some? {
          sources := sources + [text[objectStart.value..index]];
          objectStart := None;
        }
      }
    }
    assert text[..index] == text;
    r := if |sources| == 1 then Some(sources[0]) else None;
  }

  // ---------- bracketed text ----------

  /** A character of a string literal, plain or behind a backslash. */
  datatype Unit = Bare(c: char) | Escape(c: char)

  /**
   * Text whose braces, brackets and quotes nest properly: prose and any JSON text, in any layout.
   * Separators, colons, white space, numbers and literals are `Plain`.
   */
  datatype Piece =
    | Plain(text: string)
    | Quoted(units: seq<Unit>)
    | Array(items: seq<Piece>)
    | Object(items: seq<Piece>)

  predicate IsPlain(s: string) {
    forall i :: 0 <= i < |s| ==> s[i] !in "\"{}[]"
  }

  predicate Proper(p: Piece)
    decreases p, 1
  {
    match p
    case Plain(text) => IsPlain(text)
    case Quoted(units) => forall i :: 0 <= i < |units| ==> units[i].Bare? ==> units[i].c != '"' && units[i].c != '\\'
    case Array(items) => AllProper(items)
    case Object(items) => AllProper(items)
  }

  predicate AllProper(ps: seq<Piece>)
    decreases ps, 0
  {
    ps == [] || (Proper(ps[0]) && AllProper(ps[1..]))
  }

  function RenderUnits(units: seq<Unit>): string {
    if units == [] then ""
    else (match units[0] case Bare(c) => [c] case Escape(c) => ['\\', c]) + RenderUnits(units[1..])
  }

  function Render(p: Piece): string
    decreases p, 1
  {
    match p
    case Plain(text) => text
    case Quoted(units) => "\"" + RenderUnits(units) + "\""
    case Array(items) => "[" + RenderAll(items) + "]"
    case Object(items) => "{" + RenderAll(items) + "}"
  }

  function RenderAll(ps: seq<Piece>): string
    decreases ps, 0
  {
    if ps == [] then "" else Render(ps[0]) + RenderAll(ps[1..])
  }

  /** The objects that stand in the prose itself, outside every array and every other object. */
  function TopObjects(ps: seq<Piece>): seq<string> {
    if ps == [] then []
    else (if ps[0].Object? then [Render(ps[0])] else []) + TopObjects(ps[1..])
  }

  lemma ExtendNothing(current: Option<string>)
    ensures Extend(current, "") == current
  {
    if current.Some? {
      assert current.value + "" == current.value;
    }
  }

  lemma ExtendTwice(current: Option<string>, a: string, b: string)
    ensures Extend(Extend(current, a), b) == Extend(current, a + b)
  {
    if current.Some? {
      assert current.value + a + b == current.value + (a + b);
    }
  }

  predicate Quiet(s: Scan) {
    !s.inString && !s.escaped && (s.depth == 0 ==> s.current.None?)
  }

  lemma RunChar(s: Scan, c: char)
    ensures Run(s, [c]) == Feed(s, c)
  {
    assert [c][..0] == "";
    assert Run(s, "") == s;
  }

  lemma {:induction false} RunPlain(s: Scan, text: string)
    requires Quiet(s) && IsPlain(text)
    ensures Run(s, text) == s.(current := Extend(s.current, text))
    decreases |text|
  {
    if text == "" {
      ExtendNothing(s.current);
    } else {
      var front := text[..|text| - 1];
      RunPlain(s, front);
      ExtendTwice(s.current, front, [text[|text| - 1]]);
      assert front + [text[|text| - 1]] == text;
    }
  }

  lemma {:induction false} RunUnits(s: Scan, units: seq<Unit>)
    requires s.inString && !s.escaped && Proper(Quoted(units))
    ensures Run(s, RenderUnits(units)) == s.(current := Extend(s.current, RenderUnits(units)))
    decreases |units|
  {
    if units == [] {
      ExtendNothing(s.current);
    } else {
      var u := units[0];
      var head := match u case Bare(c) => [c] case Escape(c) => ['\\', c];
      RunConcat(s, head, RenderUnits(units[1..]));
      RunChar(s, head[0]);
      if u.Escape? {
        assert head == ['\\'] + [u.c];
        RunConcat(s, ['\\'], [u.c]);
        RunChar(Feed(s, '\\'), u.c);
      }
      var t := s.(current := Extend(s.current, head));
      ExtendTwice(s.current, ['\\'], [u.c]);
      assert u.Bare? ==> u.c != '"' && u.c != '\\';
      assert Run(s, head) == t;
      ExtendTwice(s.current, head, RenderUnits(units[1..]));
      RunUnits(t, units[1..]);
    }
  }

  /** What scanning one proper piece does to the state: it is kept, except for a top-level object. */
  function After(s: Scan, p: Piece): Scan {
    if s.depth == 0 && s.brackets == 0 && p.Object? then s.(sources := s.sources + [Render(p)])
    else s.(current := Extend(s.current, Render(p)))
  }

  function AfterAll(s: Scan, ps: seq<Piece>): Scan {
    s.(current := Extend(s.current, RenderAll(ps)),
       sources := s.sources + if s.depth == 0 && s.brackets == 0 then TopObjects(ps) else [])
  }

  lemma {:induction false} RunPiece(s: Scan, p: Piece)
    requires Quiet(s) && Proper(p)
    ensures Run(s, Render(p)) == After(s, p)
    decreases p, 1
  {
    match p
    case Plain(text) =>
      RunPlain(s, text);
    case Quoted(units) =>
      RunEnclosed(s, '"', RenderUnits(units), '"');
      RunUnits(Feed(s, '"'), units);
      Enclosing(s.current, "\"", RenderUnits(units), "\"");
    case Array(items) =>
      RunEnclosed(s, '[', RenderAll(items), ']');
      RunPieces(Feed(s, '['), items);
      ArrayCloses(s, items);
    case Object(items) =>
      RunEnclosed(s, '{', RenderAll(items), '}');
      RunPieces(Feed(s, '{'), items);
      ObjectCloses(s, items);
  }

  lemma Enclosing(current: Option<string>, open: string, body: string, close: string)
    ensures Extend(Extend(Extend(current, open), body), close) == Extend(current, open + body + close)
  {
    ExtendTwice(current, open, body);
    ExtendTwice(current, open + body, close);
  }

  lemma ArrayCloses(s: Scan, items: seq<Piece>)
    requires Quiet(s)
    ensures Feed(AfterAll(Feed(s, '['), items), ']') == After(s, Array(items))
  {
    Enclosing(s.current, "[", RenderAll(items), "]");
  }

  lemma ObjectCloses(s: Scan, items: seq<Piece>)
    requires Quiet(s)
    ensures Feed(AfterAll(Feed(s, '{'), items), '}') == After(s, Object(items))
  {
    Enclosing(s.current, "{", RenderAll(items), "}");
  }

  /** Scanning bracketed text is: opener, body, closer. */
  lemma {:induction false} RunEnclosed(s: Scan, open: char, body: string, close: char)
    ensures Run(s, [open] + body + [close]) == Feed(Run(Feed(s, open), body), close)
  {
    RunChar(s, open);
    RunConcat(s, [open], body);
    RunConcat(s, [open] + body, [close]);
    RunChar(Run(s, [open] + body), close);
  }

  lemma AfterAllUnfolds(s: Scan, ps: seq<Piece>)
    requires Quiet(s) && ps != []
    ensures Quiet(After(s, ps[0]))
    ensures AfterAll(After(s, ps[0]), ps[1..]) == AfterAll(s, ps)
  {
    ExtendTwice(s.current, Render(ps[0]), RenderAll(ps[1..]));
    var top := if ps[0].Object? then [Render(ps[0])] else [];
    assert s.sources + top + TopObjects(ps[1..]) == s.sources + (top + TopObjects(ps[1..]));
    assert s.sources + [] == s.sources;
  }

  lemma {:induction false} RunPieces(s: Scan, ps: seq<Piece>)
    requires Quiet(s) && AllProper(ps)
    ensures Run(s, RenderAll(ps)) == AfterAll(s, ps)
    decreases ps, 0
  {
    if ps == [] {
      ExtendNothing(s.current);
    } else {
      RunConcat(s, Render(ps[0]), RenderAll(ps[1..]));
      RunPiece(s, ps[0]);
      var t := After(s, ps[0]);
      RunPieces(t, ps[1..]);
      AfterAllUnfolds(s, ps);
    }
  }

  /**
   * On properly bracketed text the scanner collects the top-level objects, in order, each with its
   * exact text, and gives a result exactly when there is one of them.
   */
  lemma {:induction false} CollectsTopLevelObjects(ps: seq<Piece>)
    requires AllProper(ps)
    ensures Sources(RenderAll(ps)) == TopObjects(ps)
    ensures Extracted(RenderAll(ps)).Some? <==> |TopObjects(ps)| == 1
    ensures |TopObjects(ps)| == 1 ==> Extracted(RenderAll(ps)) == Some(TopObjects(ps)[0])
  {
    RunPieces(START, ps);
    assert [] + TopObjects(ps) == TopObjects(ps);
  }

  // ---------- text that does not nest ----------

  lemma QuietAfter(ps: seq<Piece>)
    requires AllProper(ps)
    ensures Run(START, RenderAll(ps)) == START.(sources := TopObjects(ps))
  {
    RunPieces(START, ps);
    assert [] + TopObjects(ps) == TopObjects(ps);
  }

  /** A closing bracket or brace with nothing to close is like any other character. */
  lemma {:induction false} StrayCloserIsNothing(ps: seq<Piece>, closer: char, qs: seq<Piece>)
    requires AllProper(ps) && AllProper(qs) && closer in "]}"
    ensures Sources(RenderAll(ps) + [closer] + RenderAll(qs)) == TopObjects(ps) + TopObjects(qs)
  {
    var s := START.(sources := TopObjects(ps));
    QuietAfter(ps);
    RunConcat(START, RenderAll(ps), [closer]);
    RunChar(s, closer);
    RunConcat(START, RenderAll(ps) + [closer], RenderAll(qs));
    RunPieces(s, qs);
  }

  /** Behind an opening bracket or brace that nothing closes no object is collected any more. */
  lemma {:induction false} UnclosedHidesTheRest(ps: seq<Piece>, opener: char, qs: seq<Piece>)
    requires AllProper(ps) && AllProper(qs) && opener in "[{"
    ensures Sources(RenderAll(ps) + [opener] + RenderAll(qs)) == TopObjects(ps)
  {
    var s := START.(sources := TopObjects(ps));
    QuietAfter(ps);
    RunConcat(START, RenderAll(ps), [opener]);
    RunChar(s, opener);
    RunConcat(START, RenderAll(ps) + [opener], RenderAll(qs));
    RunPieces(Feed(s, opener), qs);
    assert TopObjects(ps) + [] == TopObjects(ps);
  }

  /** Behind a quote that nothing closes neither, whatever stands there. */
  lemma {:induction false} UnclosedQuoteHidesTheRest(ps: seq<Piece>, units: seq<Unit>)
    requires AllProper(ps) && Proper(Quoted(units))
    ensures Sources(RenderAll(ps) + ['"'] + RenderUnits(units)) == TopObjects(ps)
  {
    var s := START.(sources := TopObjects(ps));
    QuietAfter(ps);
    RunConcat(START, RenderAll(ps), ['"']);
    RunChar(s, '"');
    RunConcat(START, RenderAll(ps) + ['"'], RenderUnits(units));
    RunUnits(Feed(s, '"'), units);
  }

  // ---------- printed JSON values ----------

  datatype Json =
    | JNull
    | JBool(b: bool)
    | JNumber(digits: string)
    | JString(s: string)
    | JArray(items: seq<Json>)
    | JObject(members: seq<Member>)

  datatype Member = Member(key: string, value: Json)

  predicate Printable(v: Json)
    decreases v, 1
  {
    match v
    case JNumber(digits) => IsPlain(digits)
    case JArray(items) => AllPrintable(items)
    case JObject(members) => AllMembersPrintable(members)
    case _ => true
  }

  predicate AllPrintable(vs: seq<Json>)
    decreases vs, 0
  {
    vs == [] || (Printable(vs[0]) && AllPrintable(vs[1..]))
  }

  predicate AllMembersPrintable(ms: seq<Member>)
    decreases ms, 0
  {
    ms == [] || (Printable(ms[0].value) && AllMembersPrintable(ms[1..]))
  }

  /** JSON.stringify. */
  function Stringify(v: Json): string
    decreases v, 1
  {
    match v
    case JNull => "null"
    case JBool(b) => if b then "true" else "false"
    case JNumber(digits) => digits
    case JString(s) => Quote(s)
    case JArray(items) => "[" + StringifyItems(items) + "]"
    case JObject(members) => "{" + StringifyMembers(members) + "}"
  }

  function StringifyItems(vs: seq<Json>): string
    decreases vs, 0
  {
    if vs == [] then ""
    else Stringify(vs[0]) + (if |vs| > 1 then "," else "") + StringifyItems(vs[1..])
  }

  function StringifyMembers(ms: seq<Member>): string
    decreases ms, 0
  {
    if ms == [] then ""
    else
      Quote(ms[0].key) + ":" + Stringify(ms[0].value) + (if |ms| > 1 then "," else "") + StringifyMembers(ms[1..])
  }

  function LiteralUnits(s: string): seq<Unit> {
    if s == "" then [] else CharUnits(s[0]) + LiteralUnits(s[1..])
  }

  function CharUnits(c: char): (r: seq<Unit>) {
    var e := EscapeChar(c);
    if |e| == 1 then [Bare(e[0])]
    else if |e| == 6 then [Escape(e[1]), Bare(e[2]), Bare(e[3]), Bare(e[4]), Bare(e[5])]
    else [Escape(e[|e| - 1])]
  }

  function PieceOf(v: Json): Piece
    decreases v, 1
  {
    match v
    case JString(s) => Quoted(LiteralUnits(s))
    case JArray(items) => Array(ItemPieces(items))
    case JObject(members) => Object(MemberPieces(members))
    case _ => Plain(Stringify(v))
  }

  function ItemPieces(vs: seq<Json>): seq<Piece>
    decreases vs, 0
  {
    if vs == [] then []
    else [PieceOf(vs[0]), Plain(if |vs| > 1 then "," else "")] + ItemPieces(vs[1..])
  }

  function MemberPieces(ms: seq<Member>): seq<Piece>
    decreases ms, 0
  {
    if ms == [] then []
    else MemberHead(ms[0], if |ms| > 1 then "," else "") + MemberPieces(ms[1..])
  }

  function MemberHead(m: Member, comma: string): seq<Piece>
    decreases m, 2
  {
    [Quoted(LiteralUnits(m.key)), Plain(":")] + [PieceOf(m.value), Plain(comma)]
  }

  lemma {:induction false} CharUnitsRender(c: char)
    ensures RenderUnits(CharUnits(c)) == EscapeChar(c)
    ensures Proper(Quoted(CharUnits(c)))
  {
    if |EscapeChar(c)| == 6 {
      ControlUnitsRender(c);
    } else {
      OneUnit(CharUnits(c)[0]);
    }
  }

  lemma {:induction false} ControlUnitsRender(c: char)
    requires |EscapeChar(c)| == 6
    ensures RenderUnits(CharUnits(c)) == EscapeChar(c) && Proper(Quoted(CharUnits(c)))
  {
    var h, l := HexDigit(c as int / 16), HexDigit(c as int % 16);
    assert EscapeChar(c) == ['\\', 'u', '0', '0', h, l];
    HexDigitIsPrintable(c as int / 16);
    HexDigitIsPrintable(c as int % 16);
    SixUnits('u', '0', '0', h, l);
    ControlUnitsAreProper(h, l);
  }

  lemma ControlUnitsAreProper(h: char, l: char)
    requires h != '"' && h != '\\' && l != '"' && l != '\\'
    ensures Proper(Quoted([Escape('u'), Bare('0'), Bare('0'), Bare(h), Bare(l)]))
  {
    var units := [Escape('u'), Bare('0'), Bare('0'), Bare(h), Bare(l)];
    forall i | 0 <= i < |units| && units[i].Bare?
      ensures units[i].c != '"' && units[i].c != '\\'
    {
      assert units[i] == Bare('0') || units[i] == Bare(h) || units[i] == Bare(l);
    }
  }

  lemma OneUnit(u: Unit)
    ensures RenderUnits([u]) == match u case Bare(c) => [c] case Escape(c) => ['\\', c]
  {
    assert [u][1..] == [];
  }

  lemma SixUnits(u: char, a: char, b: char, c: char, d: char)
    ensures RenderUnits([Escape(u), Bare(a), Bare(b), Bare(c), Bare(d)]) == ['\\', u, a, b, c, d]
  {
    OneUnit(Escape(u));
    OneUnit(Bare(a));
    OneUnit(Bare(b));
    OneUnit(Bare(c));
    OneUnit(Bare(d));
    RenderUnitsConcat([Escape(u)], [Bare(a)]);
    RenderUnitsConcat([Escape(u)] + [Bare(a)], [Bare(b)]);
    RenderUnitsConcat([Escape(u)] + [Bare(a)] + [Bare(b)], [Bare(c)]);
    RenderUnitsConcat([Escape(u)] + [Bare(a)] + [Bare(b)] + [Bare(c)], [Bare(d)]);
    assert [Escape(u)] + [Bare(a)] + [Bare(b)] + [Bare(c)] + [Bare(d)] ==
           [Escape(u), Bare(a), Bare(b), Bare(c), Bare(d)];
  }

  lemma {:induction false} RenderUnitsConcat(a: seq<Unit>, b: seq<Unit>)
    ensures RenderUnits(a + b) == RenderUnits(a) + RenderUnits(b)
    decreases |a|
  {
    if a == [] {
      assert a + b == b;
    } else {
      assert (a + b)[1..] == a[1..] + b;
      RenderUnitsConcat(a[1..], b);
    }
  }

  lemma {:induction false} LiteralRenders(s: string)
    ensures RenderUnits(LiteralUnits(s)) == EscapeBody(s)
    ensures Proper(Quoted(LiteralUnits(s)))
    decreases |s|
  {
    if s != "" {
      CharUnitsRender(s[0]);
      LiteralRenders(s[1..]);
      RenderUnitsConcat(CharUnits(s[0]), LiteralUnits(s[1..]));
    }
  }

  lemma {:induction false} RenderAllConcat(a: seq<Piece>, b: seq<Piece>)
    ensures RenderAll(a + b) == RenderAll(a) + RenderAll(b)
    ensures AllProper(a + b) <==> AllProper(a) && AllProper(b)
    ensures TopObjects(a + b) == TopObjects(a) + TopObjects(b)
    decreases |a|
  {
    if a == [] {
      assert a + b == b;
    } else {
      assert (a + b)[1..] == a[1..] + b;
      RenderAllConcat(a[1..], b);
      assert Render(a[0]) + (RenderAll(a[1..]) + RenderAll(b)) == Render(a[0]) + RenderAll(a[1..]) + RenderAll(b);
      var top := if a[0].Object? then [Render(a[0])] else [];
      assert top + (TopObjects(a[1..]) + TopObjects(b)) == top + TopObjects(a[1..]) + TopObjects(b);
    }
  }

  lemma OnePiece(p: Piece)
    ensures RenderAll([p]) == Render(p)
    ensures AllProper([p]) <==> Proper(p)
    ensures TopObjects([p]) == if p.Object? then [Render(p)] else []
  {
    assert [p][1..] == [];
    assert Render(p) + "" == Render(p);
    assert RenderAll([]) == "" && AllProper([]) && TopObjects([]) == [];
  }

  lemma TwoPieces(a: Piece, b: Piece)
    ensures RenderAll([a, b]) == Render(a) + Render(b)
    ensures AllProper([a, b]) <==> Proper(a) && Proper(b)
    ensures TopObjects([a, b]) == (if a.Object? then [Render(a)] else []) + if b.Object? then [Render(b)] else []
  {
    OnePiece(a);
    OnePiece(b);
    RenderAllConcat([a], [b]);
    assert [a] + [b] == [a, b];
  }

  lemma {:induction false} PieceRendersValue(v: Json)
    requires Printable(v)
    ensures Proper(PieceOf(v)) && Render(PieceOf(v)) == Stringify(v)
    decreases v, 1
  {
    match v
    case JString(s) => QuotedRenders(s);
    case JArray(items) => ItemPiecesRender(items);
    case JObject(members) => MemberPiecesRender(members);
    case _ =>
  }

  lemma {:induction false} ItemPiecesRender(vs: seq<Json>)
    requires AllPrintable(vs)
    ensures AllProper(ItemPieces(vs)) && RenderAll(ItemPieces(vs)) == StringifyItems(vs)
    decreases vs, 0
  {
    if vs != [] {
      var comma := Plain(if |vs| > 1 then "," else "");
      PieceRendersValue(vs[0]);
      ItemPiecesRender(vs[1..]);
      TwoPieces(PieceOf(vs[0]), comma);
      RenderAllConcat([PieceOf(vs[0]), comma], ItemPieces(vs[1..]));
    }
  }

  lemma {:induction false} MemberPiecesRender(ms: seq<Member>)
    requires AllMembersPrintable(ms)
    ensures AllProper(MemberPieces(ms)) && RenderAll(MemberPieces(ms)) == StringifyMembers(ms)
    decreases ms, 0
  {
    if ms != [] {
      var comma := if |ms| > 1 then "," else "";
      PieceRendersValue(ms[0].value);
      MemberHeadRenders(ms[0], comma);
      MemberPiecesRender(ms[1..]);
      RenderAllConcat(MemberHead(ms[0], comma), MemberPieces(ms[1..]));
    }
  }

  lemma MemberHeadRenders(m: Member, comma: string)
    requires IsPlain(comma) && Proper(PieceOf(m.value)) && Render(PieceOf(m.value)) == Stringify(m.value)
    ensures AllProper(MemberHead(m, comma))
    ensures RenderAll(MemberHead(m, comma)) == Quote(m.key) + ":" + Stringify(m.value) + comma
  {
    var key, value := Quoted(LiteralUnits(m.key)), PieceOf(m.value);
    QuotedRenders(m.key);
    TwoPieces(key, Plain(":"));
    TwoPieces(value, Plain(comma));
    RenderAllConcat([key, Plain(":")], [value, Plain(comma)]);
    ConcatAssoc(Quote(m.key) + ":", Stringify(m.value), comma);
  }

  lemma QuotedRenders(s: string)
    ensures Proper(Quoted(LiteralUnits(s)))
    ensures Render(Quoted(LiteralUnits(s))) == Quote(s)
  {
    LiteralRenders(s);
  }

  /** Prose with printed values in it: each value follows a stretch of plain text. */
  datatype Passage = Passage(prose: string, value: Json)

  function Answer(passages: seq<Passage>, tail: string): string {
    if passages == [] then tail
    else passages[0].prose + Stringify(passages[0].value) + Answer(passages[1..], tail)
  }

  function PrintedObjects(passages: seq<Passage>): seq<string> {
    if passages == [] then []
    else
      (if passages[0].value.JObject? then [Stringify(passages[0].value)] else []) + PrintedObjects(passages[1..])
  }

  predicate PlainProse(passages: seq<Passage>) {
    forall i :: 0 <= i < |passages| ==> IsPlain(passages[i].prose) && Printable(passages[i].value)
  }

  /**
   * Prose interleaved with printed JSON values: the scanner collects exactly the printed objects, none
   * from inside an array or a string, and returns a source exactly when one object was printed.
   */
  lemma {:induction false} FindsPrintedObjects(passages: seq<Passage>, tail: string)
    requires PlainProse(passages) && IsPlain(tail)
    ensures Sources(Answer(passages, tail)) == PrintedObjects(passages)
    ensures Extracted(Answer(passages, tail)) ==
            if |PrintedObjects(passages)| == 1 then Some(PrintedObjects(passages)[0]) else None
  {
    var ps := AnswerPieces(passages, tail);
    CollectsTopLevelObjects(ps);
  }

  lemma {:induction false} AnswerPieces(passages: seq<Passage>, tail: string) returns (ps: seq<Piece>)
    requires PlainProse(passages) && IsPlain(tail)
    ensures AllProper(ps)
    ensures RenderAll(ps) == Answer(passages, tail)
    ensures TopObjects(ps) == PrintedObjects(passages)
    decreases |passages|
  {
    if passages == [] {
      ps := [Plain(tail)];
      OnePiece(Plain(tail));
    } else {
      var rest := AnswerPieces(passages[1..], tail);
      var head := [Plain(passages[0].prose), PieceOf(passages[0].value)];
      PieceRendersValue(passages[0].value);
      TwoPieces(head[0], head[1]);
      RenderAllConcat(head, rest);
      ps := head + rest;
    }
  }

  // ---------- arbitrary text ----------

  /** Brace depth outside string literals, counted from the start of a text, knowing nothing of sources. */
  datatype Lex = Lex(depth: int, inString: bool, escaped: bool)

  function LexChar(s: Lex, c: char): Lex {
    if s.inString then
      Lex(s.depth, s.escaped || c != '"', !s.escaped && c == '\\')
    else
      Lex(s.depth + (if c == '{' then 1 else if c == '}' then -1 else 0), c == '"', false)
  }

  function LexRun(text: string): Lex {
    if text == "" then Lex(0, false, false) else LexChar(LexRun(text[..|text| - 1]), text[|text| - 1])
  }

  predicate StaysOpen(text: string) {
    forall k :: 0 < k <= |text| ==> LexRun(text[..k]).depth > 0
  }

  /** One object's text: its brace depth is positive up to the last character, which closes it. */
  predicate ClosesAtEnd(src: string) {
    src != "" && StaysOpen(src[..|src| - 1]) && LexRun(src) == Lex(0, false, false)
  }

  /** What is known of the scanner after any text at all. */
  predicate Explained(text: string, s: Scan) {
    && (s.depth == 0 ==> s.current.None?)
    && (s.escaped ==> s.inString)
    && (s.current.Some? ==>
          var cur := s.current.value;
          && s.brackets == 0
          && |cur| <= |text| && text[|text| - |cur|..] == cur
          && StaysOpen(cur)
          && LexRun(cur) == Lex(s.depth, s.inString, s.escaped)
          && Run(START, cur) == s.(sources := []))
    && forall src :: src in s.sources ==> Accounted(text, src)
  }

  predicate Accounted(text: string, src: string) {
    Contains(text, src) && ClosesAtEnd(src) && Sources(src) == [src]
  }

  lemma ContainsGrows(text: string, c: char, src: string)
    requires Contains(text, src)
    ensures Contains(text + [c], src)
  {
    var p := IndexOf(text, src).value;
    assert (text + [c])[p..p + |src|] == text[p..p + |src|];
    assert OccursAt(text + [c], src, p);
    ContainsIff(text + [c], src);
  }

  lemma StaysOpenGrows(cur: string, c: char)
    requires StaysOpen(cur) && LexChar(LexRun(cur), c).depth > 0
    ensures StaysOpen(cur + [c])
  {
    assert (cur + [c])[..|cur|] == cur;
    forall k | 0 < k <= |cur + [c]|
      ensures LexRun((cur + [c])[..k]).depth > 0
    {
      if k <= |cur| {
        assert (cur + [c])[..k] == cur[..k];
      } else {
        assert (cur + [c])[..k] == cur + [c];
      }
    }
  }

  lemma OneMore(text: string, c: char)
    ensures Run(START, text + [c]) == Feed(Run(START, text), c)
    ensures LexRun(text + [c]) == LexChar(LexRun(text), c)
  {
    assert (text + [c])[..|text|] == text;
  }

  lemma ExplainedStep(text: string, s: Scan, c: char)
    requires Explained(text, s)
    ensures Explained(text + [c], Feed(s, c))
  {
    hide ClosesAtEnd, Sources, Contains, StaysOpen, LexRun, Run;
    forall src | src in s.sources
      ensures Accounted(text + [c], src)
    {
      ContainsGrows(text, c, src);
    }
    if s.current.Some? {
      CollectingStep(text, s, c);
    } else if Feed(s, c).current.Some? {
      OpeningStep(text, s, c);
    }
  }

  lemma OpeningStep(text: string, s: Scan, c: char)
    requires s.current.None? && Feed(s, c).current.Some?
    ensures var t := Feed(s, c);
      && t == Scan(1, 0, false, s.escaped, Some("{"), s.sources)
      && (text + [c])[|text + [c]| - 1..] == "{"
      && StaysOpen("{") && LexRun("{") == Lex(1, false, false)
      && Run(START, "{") == Scan(1, 0, false, false, Some("{"), [])
  {
    OneMore("", c);
    assert "" + [c] == "{" && Run(START, "") == START;
    StaysOpenGrows("", c);
    assert (text + [c])[|text|..] == "{";
  }

  /** A step inside a collected object extends it, or finishes it with its closing brace. */
  lemma CollectingStep(text: string, s: Scan, c: char)
    requires Explained(text, s) && s.current.Some?
    ensures var t := Feed(s, c); var next := s.current.value + [c];
      if t.current.Some? then
        && t.current == Some(next) && t.depth > 0 && t.brackets == 0 && t.sources == s.sources
        && (t.escaped ==> t.inString)
        && |next| <= |text + [c]| && (text + [c])[|text + [c]| - |next|..] == next
        && StaysOpen(next) && LexRun(next) == Lex(t.depth, t.inString, t.escaped)
        && Run(START, next) == t.(sources := [])
      else
        t == Scan(0, 0, false, false, None, s.sources + [next]) && Accounted(text + [c], next)
  {
    var t, cur := Feed(s, c), s.current.value;
    var next := cur + [c];
    OneMore(cur, c);
    assert (text + [c])[|text + [c]| - |next|..] == next;
    assert LexRun(next) == Lex(t.depth, t.inString, t.escaped);
    var f := Feed(s.(sources := []), c);
    if t.current.Some? {
      StaysOpenGrows(cur, c);
    } else {
      assert f.sources == [] + [next];
      assert next[..|next| - 1] == cur;
      assert OccursAt(text + [c], next, |text + [c]| - |next|);
      ContainsIff(text + [c], next);
      assert Sources(next) == [next];
    }
  }

  lemma {:induction false} ExplainedAlways(text: string)
    ensures Explained(text, Run(START, text))
    decreases |text|
  {
    if text != "" {
      var front := text[..|text| - 1];
      ExplainedAlways(front);
      ExplainedStep(front, Run(START, front), text[|text| - 1]);
      assert front + [text[|text| - 1]] == text;
    }
  }

  /**
   * Whatever the text, a source the scanner returns is a contiguous part of it whose brace depth outside
   * strings stays positive until its last character; extracting again from the source returns it unchanged.
   */
  lemma {:induction false} ExtractionIsIdempotent(text: string)
    requires Extracted(text).Some?
    ensures var src := Extracted(text).value;
      Contains(text, src) && ClosesAtEnd(src) && Extracted(src) == Some(src)
  {
    ExplainedAlways(text);
    assert Extracted(text).value in Sources(text);
  }
}
