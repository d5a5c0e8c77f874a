/** One assignment line of a managed block: how it is printed and how it is read back at start-up. */
module EnvValues {
  import opened Text
  import opened JsonText
  import opened EnvFile

  datatype Assignment = Assignment(name: string, value: string)

  type Env = map<string, string>

  // ---------- values ----------

  predicate PlainValueChar(c: char) {
    'A' <= c <= 'Z' || 'a' <= c <= 'z' || '0' <= c <= '9' || c in "_./:@+-"
  }

  /** Values that are written as they are; every other value is written as a JSON string. */
  predicate IsPlainValue(v: string) {
    v != "" && forall i :: 0 <= i < |v| ==> PlainValueChar(v[i])
  }

  function FormatEnvAssignmentValue(v: string): string {
    if IsPlainValue(v) then v else Quote(v)
  }

  function ParseEnvAssignmentValue(raw: string): Result<string, EnvError> {
    if raw != "" && raw[0] == '"' then
      match Unquote(raw)
      case Some(v) => Ok(v)
      case None => Err(FileInvalid)
    else Ok(raw)
  }

  /** Every value is read back as it was, quoted or not. */
  lemma {:induction false} ValueIsReadBack(v: string)
    ensures ParseEnvAssignmentValue(FormatEnvAssignmentValue(v)) == Ok(v)
  {
    hide Unquote, EscapeBody;
    UnquoteOfQuote(v);
  }

  /** A printed value is never empty, has no space at either end and holds no control character. */
  lemma {:induction false} PrintedValueIsTidy(v: string)
    ensures var t := FormatEnvAssignmentValue(v);
      && t != "" && !IsSpace(t[0]) && !IsSpace(t[|t| - 1])
      && forall i :: 0 <= i < |t| ==> t[i] >= ' '
  {
    EscapeBodyIsOneLine(v);
  }

  /** Values of letters, digits and these few signs are written bare, all others as JSON strings. */
  lemma {:induction false} FormatAnswers(v: string)
    ensures var bare := v != "" && forall i :: 0 <= i < |v| ==>
        'A' <= v[i] <= 'Z' || 'a' <= v[i] <= 'z' || '0' <= v[i] <= '9' || v[i] in {'_', '.', '/', ':', '@', '+', '-'};
      var t := FormatEnvAssignmentValue(v);
      && (bare <==> t == v)
      && (!bare ==> t[0] == '"' && t[|t| - 1] == '"' && |t| >= |v| + 2 && Unquote(t) == Some(v))
  {
    hide Unquote;
    UnquoteOfQuote(v);
    EscapedIsNoShorter(v);
  }

  lemma {:induction false} EscapedIsNoShorter(v: string)
    ensures |EscapeBody(v)| >= |v|
    decreases |v|
  {
    hide EscapeChar;
    if v != "" {
      EscapedIsNoShorter(v[1..]);
    }
  }

  // ---------- lines ----------

  predicate NameChar(c: char) {
    'A' <= c <= 'Z' || '0' <= c <= '9' || c == '_'
  }

  predicate IsName(name: string) {
    name != "" && forall i :: 0 <= i < |name| ==> NameChar(name[i])
  }

  function PrintLine(a: Assignment): string {
    a.name + "=" + FormatEnvAssignmentValue(a.value)
  }

  /** One line of a block's body: nothing for a blank line or a comment. */
  function ReadLine(line: string): Result<Option<Assignment>, EnvError> {
    var t := Trim(line);
    if t == "" || t[0] == '#' then Ok(None)
    else
      match IndexOf(t, "=")
      case None => Err(FileInvalid)
      case Some(i) =>
        if i == 0 || !IsName(Trim(t[..i])) then Err(FileInvalid)
        else
          match ParseEnvAssignmentValue(Trim(t[i + 1..]))
          case Err(e) => Err(e)
          case Ok(v) => Ok(Some(Assignment(Trim(t[..i]), v)))
  }

  lemma EqualsAfterName(name: string, rest: string)
    requires IsName(name)
    ensures IndexOf(name + "=" + rest, "=") == Some(|name|)
  {
    var t := name + "=" + rest;
    forall p: nat | p < |name|
      ensures !OccursAt(t, "=", p)
    {
      assert NameChar(t[p]);
      Differs(t, "=", p, 0);
    }
    IndexIs(t, "=", |name|);
  }

  lemma NameIsTidy(name: string)
    requires IsName(name)
    ensures Trim(name) == name && name != "" && !IsSpace(name[0]) && name[0] != '#'
  {
    assert NameChar(name[0]) && NameChar(name[|name| - 1]);
  }

  /** A printed line is read back as the assignment it was printed from. */
  lemma {:induction false} LineIsReadBack(a: Assignment)
    requires IsName(a.name)
    ensures ReadLine(PrintLine(a)) == Ok(Some(a))
  {
    hide IndexOf, FormatEnvAssignmentValue, ParseEnvAssignmentValue, IsName, TrimStart, TrimEnd;
    var v := FormatEnvAssignmentValue(a.value);
    var t := PrintLine(a);
    NameIsTidy(a.name);
    PrintedValueIsTidy(a.value);
    EqualsAfterName(a.name, v);
    ValueIsReadBack(a.value);
    assert t[..|a.name|] == a.name && t[|a.name| + 1..] == v;
    assert t[0] == a.name[0] && t[|t| - 1] == v[|v| - 1];
    assert Trim(t) == t && Trim(v) == v;
  }

  predicate HoldsEquals(s: string) {
    exists i :: 0 <= i < |s| && s[i] == '='
  }

  predicate CapitalName(n: string) {
    n != "" && forall i :: 0 <= i < |n| ==> 'A' <= n[i] <= 'Z' || '0' <= n[i] <= '9' || n[i] == '_'
  }

  lemma NoEqualsToFind(p: string)
    requires !HoldsEquals(p)
    ensures IndexOf(p, "=") == None
  {
    forall i: nat
      ensures !OccursAt(p, "=", i)
    {
      Differs(p, "=", i, 0);
    }
  }

  lemma FirstEquals(p: string, q: string)
    requires !HoldsEquals(p)
    ensures IndexOf(p + "=" + q, "=") == Some(|p|)
  {
    var t := p + "=" + q;
    forall i: nat | i < |p|
      ensures !OccursAt(t, "=", i)
    {
      assert t[i] == p[i];
      Differs(t, "=", i, 0);
    }
    IndexIs(t, "=", |p|);
  }

  /**
   * Any line, without the spaces around it: nothing when it is empty or starts with a hash; otherwise it needs an
   * equals sign behind a name of capitals, digits and underscores; what is behind the first one is the value, read
   * as a JSON string when it starts with a quote and as it is when it does not.
   */
  lemma {:induction false} AssignmentAnswers(line: string, p: string, q: string)
    requires !HoldsEquals(p)
    ensures Trim(line) == "" || Trim(line)[0] == '#' ==> ReadLine(line) == Ok(None)
    ensures Trim(line) == p && p != "" && p[0] != '#' ==> ReadLine(line) == Err(FileInvalid)
    ensures Trim(line) == p + "=" + q && (p == "" || p[0] != '#') ==>
      ReadLine(line) ==
        if !CapitalName(Trim(p)) then Err(FileInvalid)
        else if Trim(q) == "" || Trim(q)[0] != '"' then Ok(Some(Assignment(Trim(p), Trim(q))))
        else if Unquote(Trim(q)).None? then Err(FileInvalid)
        else Ok(Some(Assignment(Trim(p), Unquote(Trim(q)).value)))
  {
    hide IndexOf, Unquote, Trim, HoldsEquals;
    NoEqualsToFind(p);
    FirstEquals(p, q);
    var t := p + "=" + q;
    assert t[..|p|] == p && t[|p| + 1..] == q;
    EmptyTrims();
  }

  lemma EmptyTrims()
    ensures Trim("") == ""
  {
  }

  // ---------- a block's body ----------

  /** Splitting at /\r?\n/: a carriage return before a line break goes with the break. */
  function SplitAtBreaks(body: string): seq<string> {
    WithoutCrs(Lines(body))
  }

  function WithoutCrs(lines: seq<string>): (r: seq<string>)
    ensures |r| == |lines|
  {
    if |lines| <= 1 then lines else [DropCr(lines[0])] + WithoutCrs(lines[1..])
  }

  /** Reads the lines one after the other; a later assignment to a name replaces an earlier one. */
  function ReadLines(lines: seq<string>, env: Env): Result<Env, EnvError> {
    if lines == [] then Ok(env)
    else
      match ReadLine(lines[0])
      case Err(e) => Err(e)
      case Ok(None) => ReadLines(lines[1..], env)
      case Ok(Some(a)) => ReadLines(lines[1..], env[a.name := a.value])
  }

  function ParseBlock(content: string, m: Markers): Result<Option<Env>, EnvError> {
    match BlockBody(content, m)
    case Err(e) => Err(e)
    case Ok(None) => Ok(None)
    case Ok(Some(body)) =>
      match ReadLines(SplitAtBreaks(body), map[])
      case Err(e) => Err(e)
      case Ok(env) => Ok(Some(env))
  }

  /** A name stays where it was first set, as in a map that keeps the order of insertion. */
  function NameOnce(names: seq<string>, n: string): seq<string> {
    if n in names then names else names + [n]
  }

  /** The names the lines set, in the order in which each was first set. */
  function NamesRead(lines: seq<string>, names: seq<string>): seq<string>
    decreases |lines|
  {
    if lines == [] then names
    else
      match ReadLine(lines[0])
      case Ok(Some(a)) => NamesRead(lines[1..], NameOnce(names, a.name))
      case _ => NamesRead(lines[1..], names)
  }

  function NamesOfBlock(content: string, m: Markers): seq<string> {
    match BlockBody(content, m)
    case Ok(Some(body)) => NamesRead(SplitAtBreaks(body), [])
    case _ => []
  }

  /** The names are the map's keys, each once. */
  predicate IsOrderOf(names: seq<string>, env: Env) {
    && (forall i, j :: 0 <= i < j < |names| ==> names[i] != names[j])
    && (forall n :: n in names ==> n in env)
    && (forall n :: n in env ==> n in names)
  }

  lemma {:induction false} NamesAreKeys(lines: seq<string>, names: seq<string>, env: Env)
    requires IsOrderOf(names, env) && ReadLines(lines, env).Ok?
    ensures IsOrderOf(NamesRead(lines, names), ReadLines(lines, env).value)
    decreases |lines|
  {
    hide ReadLine, IsOrderOf;
    if lines != [] {
      match ReadLine(lines[0]).value {
        case None => NamesAreKeys(lines[1..], names, env);
        case Some(a) =>
          OnceIsOrder(names, env, a);
          NamesAreKeys(lines[1..], NameOnce(names, a.name), env[a.name := a.value]);
      }
    }
  }

  /** Names keep the places they were first given, and later lines only add new ones behind them. */
  lemma {:induction false} NamesStayInPlace(lines: seq<string>, more: seq<string>, names: seq<string>)
    ensures names <= NamesRead(lines, names)
    ensures NamesRead(lines + more, names) == NamesRead(more, NamesRead(lines, names))
    decreases |lines|
  {
    hide ReadLine;
    if lines == [] {
      assert lines + more == more;
    } else {
      assert (lines + more)[1..] == lines[1..] + more && (lines + more)[0] == lines[0];
      match ReadLine(lines[0])
      case Ok(Some(a)) => NamesStayInPlace(lines[1..], more, NameOnce(names, a.name));
      case _ => NamesStayInPlace(lines[1..], more, names);
    }
  }

  lemma OnceIsOrder(names: seq<string>, env: Env, a: Assignment)
    requires IsOrderOf(names, env)
    ensures IsOrderOf(NameOnce(names, a.name), env[a.name := a.value])
  {
  }

  lemma LineErrors(line: string)
    ensures ReadLine(line).Err? ==> ReadLine(line) == Err(FileInvalid)
  {
    hide IndexOf, Unquote, IsName, Trim;
  }

  lemma {:induction false} LinesErrors(lines: seq<string>, env: Env)
    ensures ReadLines(lines, env).Err? ==> ReadLines(lines, env) == Err(FileInvalid)
    decreases |lines|
  {
    hide ReadLine;
    if lines != [] {
      LineErrors(lines[0]);
      if ReadLine(lines[0]).Ok? {
        LinesErrors(lines[1..], match ReadLine(lines[0]).value case None => env case Some(a) => env[a.name := a.value]);
      }
    }
  }

  method ParseManagedDaemonEnvBlock(content: string, m: Markers)
      returns (r: Result<Option<Env>, EnvError>, names: seq<string>)
    ensures r == ParseBlock(content, m)
    ensures r.Ok? ==> names == NamesOfBlock(content, m)
  {
    names := [];
    var body := BlockBody(content, m);
    if body.Err? {
      return Err(body.error), [];
    }
    if body.value.None? {
      return Ok(None), [];
    }
    var lines := SplitAtBreaks(body.value.value);
    var env: Env := map[];
    var i := 0;
    while i < |lines|
      invariant 0 <= i <= |lines|
      invariant ReadLines(lines, map[]) == ReadLines(lines[i..], env)
      invariant NamesRead(lines, []) == NamesRead(lines[i..], names)
    {
      assert lines[i..][1..] == lines[i + 1..];
      var line := ReadLine(lines[i]);
      if line.Err? {
        return Err(line.error), [];
      }
      if line.value.Some? {
        env := env[line.value.value.name := line.value.value.value];
        names := NameOnce(names, line.value.value.name);
      }
      i := i + 1;
    }
    r := Ok(Some(env));
  }

  /** The lines a list of assignments is printed as. */
  function PrintLines(block: seq<Assignment>): (r: seq<string>) {
    seq(|block|, i requires 0 <= i < |block| => PrintLine(block[i]))
  }

  predicate Named(block: seq<Assignment>) {
    forall i :: 0 <= i < |block| ==> IsName(block[i].name)
  }

  /** What a list of assignments means: the last one to each name counts. */
  function Assigned(env: Env, block: seq<Assignment>): Env
    decreases |block|
  {
    if block == [] then env else Assigned(env[block[0].name := block[0].value], block[1..])
  }

  lemma {:induction false} LinesAreReadBack(block: seq<Assignment>, rest: seq<string>, env: Env)
    requires Named(block)
    ensures ReadLines(PrintLines(block) + rest, env) == ReadLines(rest, Assigned(env, block))
    decreases |block|
  {
    hide ReadLine, PrintLine, IsName;
    var lines := PrintLines(block) + rest;
    if block == [] {
      assert lines == rest;
    } else {
      LineIsReadBack(block[0]);
      assert lines[1..] == PrintLines(block[1..]) + rest;
      LinesAreReadBack(block[1..], rest, env[block[0].name := block[0].value]);
    }
  }

  /** Comment lines and blank lines say nothing. */
  predicate AllComments(lines: seq<string>) {
    forall i :: 0 <= i < |lines| ==> ReadLine(lines[i]) == Ok(None)
  }

  lemma {:induction false} CommentsAreSkipped(comments: seq<string>, rest: seq<string>, env: Env)
    requires AllComments(comments)
    ensures ReadLines(comments + rest, env) == ReadLines(rest, env)
    decreases |comments|
  {
    hide ReadLine;
    var lines := comments + rest;
    if comments == [] {
      assert lines == rest;
    } else {
      assert lines[1..] == comments[1..] + rest;
      CommentsAreSkipped(comments[1..], rest, env);
    }
  }

  lemma {:induction false} NoCrsToDrop(lines: seq<string>)
    requires forall i :: 0 <= i < |lines| ==> DropCr(lines[i]) == lines[i]
    ensures WithoutCrs(lines) == lines
    decreases |lines|
  {
    hide DropCr;
    if |lines| > 1 {
      NoCrsToDrop(lines[1..]);
    }
  }

  /** A printed block: a few comment lines, then the assignments. */
  function InnerLines(comments: seq<string>, block: seq<Assignment>): seq<string> {
    comments + PrintLines(block)
  }

  /** A text line that the line split gives back as it is. */
  predicate IsTidyLine(line: string) {
    NoNewline(line) && DropCr(line) == line
  }

  lemma PrintedLineIsTidy(a: Assignment)
    requires IsName(a.name)
    ensures IsTidyLine(PrintLine(a))
  {
    var t := PrintLine(a);
    var v := FormatEnvAssignmentValue(a.value);
    PrintedValueIsTidy(a.value);
    assert t[|t| - 1] == v[|v| - 1];
    forall i | 0 <= i < |t|
      ensures t[i] != '\n'
    {
      if i < |a.name| {
        assert NameChar(a.name[i]);
      } else if i > |a.name| {
        assert t[i] == v[i - |a.name| - 1];
      }
    }
  }

  predicate AllTidy(lines: seq<string>) {
    forall i :: 0 <= i < |lines| ==> IsTidyLine(lines[i])
  }

  lemma {:induction false} InnerLinesAreTidy(comments: seq<string>, block: seq<Assignment>)
    requires AllTidy(comments) && Named(block)
    ensures AllTidy(InnerLines(comments, block))
  {
    hide IsTidyLine, IsName;
    var lines := InnerLines(comments, block);
    forall i | 0 <= i < |lines|
      ensures IsTidyLine(lines[i])
    {
      if i < |comments| {
        assert lines[i] == comments[i];
      } else {
        PrintedLineIsTidy(block[i - |comments|]);
        assert lines[i] == PrintLine(block[i - |comments|]);
      }
    }
  }

  /** The text between the markers of a printed block says exactly the block's assignments. */
  lemma {:induction false} BodyIsReadBack(comments: seq<string>, block: seq<Assignment>)
    requires AllTidy(comments) && AllComments(comments) && Named(block)
    ensures ReadLines(SplitAtBreaks(Between(InnerLines(comments, block))), map[]) == Ok(Assigned(map[], block))
  {
    hide Join, IsName, ReadLine, FormatEnvAssignmentValue, Assigned;
    var inner := InnerLines(comments, block);
    var lines := [""] + inner + [""];
    InnerLinesAreTidy(comments, block);
    assert AllTidy(lines);
    LinesOfJoin(lines);
    NoCrsToDrop(lines);
    BlankLineIsSkipped();
    CommentsAreSkipped([""], inner + [""], map[]);
    assert lines == [""] + (inner + [""]);
    assert inner + [""] == comments + (PrintLines(block) + [""]);
    CommentsAreSkipped(comments, PrintLines(block) + [""], map[]);
    LinesAreReadBack(block, [""], map[]);
    CommentsAreSkipped([""], [], Assigned(map[], block));
    assert [""] + [] == [""];
  }

  lemma BlankLineIsSkipped()
    ensures ReadLine("") == Ok(None)
  {
  }

  // ---------- no marker appears that was not in a value ----------

  predicate MarkerText(m: string) {
    forall i :: 0 <= i < |m| ==> m[i] == '#' || MarkerChar(m[i])
  }

  lemma EscapesAreNoMarkers(c: char)
    ensures |EscapeChar(c)| > 1 ==>
      forall i :: 0 <= i < |EscapeChar(c)| ==> EscapeChar(c)[i] != '#' && !MarkerChar(EscapeChar(c)[i])
    ensures |EscapeChar(c)| == 1 ==> EscapeChar(c) == [c]
  {
    if |EscapeChar(c)| == 6 {
      HexDigitIsPrintable(c as int / 16);
      HexDigitIsPrintable(c as int % 16);
    }
  }

  /** A marker at the start of an escaped text was at the start of the text. */
  lemma {:induction false} EscapedPrefix(v: string, m: string)
    requires MarkerText(m) && OccursAt(EscapeBody(v), m, 0)
    ensures OccursAt(v, m, 0)
    decreases |v|
  {
    hide EscapeChar, MarkerChar;
    if m != "" {
      var e := EscapeBody(v);
      assert v != "";
      EscapesAreNoMarkers(v[0]);
      OccursChar(e, m, 0, 0);
      assert e[0] == EscapeChar(v[0])[0];
      assert e[1..] == EscapeBody(v[1..]);
      forall k | 0 <= k < |m| - 1
        ensures e[1..][k] == m[1..][k]
      {
        OccursChar(e, m, 0, k + 1);
      }
      EscapedPrefix(v[1..], m[1..]);
      forall k | 0 <= k < |m|
        ensures v[k] == m[k]
      {
        if k > 0 {
          OccursChar(v[1..], m[1..], 0, k - 1);
        }
      }
    }
  }

  /** Escaping cannot put a marker together: what an escaped text contains, the text contained. */
  lemma {:induction false} EscapingAddsNoMarker(v: string, m: string, p: nat) returns (q: nat)
    requires MarkerText(m) && m != "" && OccursAt(EscapeBody(v), m, p)
    ensures OccursAt(v, m, q) && p == |EscapeBody(v[..q])|
    decreases |v|
  {
    hide EscapeChar, MarkerChar;
    var e := EscapeBody(v);
    q := p;
    if v != "" {
      var head := EscapeChar(v[0]);
      EscapesAreNoMarkers(v[0]);
      OccursChar(e, m, p, 0);
      if p < |head| {
        assert e[p] == head[p];
        EscapedPrefix(v, m);
        q := 0;
        assert v[..0] == "";
      } else {
        OccursRight(head, EscapeBody(v[1..]), m, p);
        var r := EscapingAddsNoMarker(v[1..], m, p - |head|);
        q := r + 1;
        assert v == [v[0]] + v[1..];
        OccursRight([v[0]], v[1..], m, q);
        assert v[..q][1..] == v[1..][..r];
      }
    }
  }

  lemma QuotedMarker(v: string, m: string, p: nat) returns (q: nat)
    requires MarkerLike(m) && OccursAt(Quote(v), m, p)
    ensures OccursAt(v, m, q)
  {
    var body := EscapeBody(v);
    assert Quote(v) == "\"" + (body + "\"");
    OccursChar(Quote(v), m, p, 0);
    OccursChar(Quote(v), m, p, |m| - 1);
    assert MarkerChar(m[|m| - 1]);
    OccursRight("\"", body + "\"", m, p);
    OccursLeft(body, "\"", m, p - 1);
    q := EscapingAddsNoMarker(v, m, p - 1);
  }

  lemma PrintedValueHasNoMarker(v: string, m: string, p: nat)
    requires MarkerLike(m) && !Contains(v, m)
    ensures !OccursAt(FormatEnvAssignmentValue(v), m, p)
  {
    hide EscapeBody, MarkerChar;
    if IsPlainValue(v) {
      assert p < |v| ==> PlainValueChar(v[p]);
      Differs(v, m, p, 0);
    } else if OccursAt(Quote(v), m, p) {
      var q := QuotedMarker(v, m, p);
      ContainsIff(v, m);
    }
  }

  /** A printed assignment holds a marker only if its value does. */
  lemma {:induction false} PrintedLineHasNoMarker(a: Assignment, m: string)
    requires IsName(a.name) && MarkerLike(m) && !Contains(a.value, m)
    ensures !Contains(PrintLine(a), m)
  {
    hide FormatEnvAssignmentValue, Contains, MarkerLike, IndexOf;
    var line, v := PrintLine(a), FormatEnvAssignmentValue(a.value);
    MarkerStart(m);
    forall p: nat
      ensures !OccursAt(line, m, p)
    {
      if p <= |a.name| {
        assert p < |a.name| ==> NameChar(a.name[p]);
        Differs(line, m, p, 0);
      } else {
        OccursRight(a.name + "=", v, m, p);
        PrintedValueHasNoMarker(a.value, m, p - |a.name| - 1);
      }
    }
    ContainsIff(line, m);
  }

  lemma MarkerStart(m: string)
    requires MarkerLike(m)
    ensures |m| > 20 && m[0] == '#' && MarkerText(m)
  {
  }
}
