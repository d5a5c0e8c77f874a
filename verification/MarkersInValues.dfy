/** Values that hold the text of a marker: where it stands in the printed block, and what the parser then reads. */
module MarkersInValues {
  import opened Text
  import opened JsonText
  import opened EnvFile
  import opened EnvValues
  import opened ManagedFile

  // ---------- a literal that is cut off ----------

  lemma CutInsideEscape(c: char, n: nat)
    requires n < |EscapeChar(c)|
    ensures ReadBody(EscapeChar(c)[..n]) == None
  {
    var t := EscapeChar(c)[..n];
    if n > 0 {
      assert t[0] == '\\';
      if |EscapeChar(c)| == 6 {
        assert n > 1 ==> t[1] == 'u';
      }
    }
  }

  /** A printed literal without its closing quote cannot be read, wherever it is cut. */
  lemma {:induction false} CutLiteralIsNotRead(v: string, n: nat)
    requires n <= |EscapeBody(v)|
    ensures ReadBody(EscapeBody(v)[..n]) == None
    decreases |v|
  {
    hide EscapeChar;
    var t := EscapeBody(v)[..n];
    if v == "" {
      assert t == "";
    } else {
      var head := EscapeChar(v[0]);
      if n < |head| {
        assert t == head[..n];
        CutInsideEscape(v[0], n);
      } else {
        var rest := EscapeBody(v[1..])[..n - |head|];
        assert t == head + rest;
        ReadEscapedChar(v[0], rest);
        CutLiteralIsNotRead(v[1..], n - |head|);
      }
    }
  }

  lemma {:induction false} TrimEndBehind(a: string, b: string)
    requires b != "" && !IsSpace(b[0])
    ensures TrimEnd(a + b) == a + TrimEnd(b) && TrimEnd(b) != "" && TrimEnd(b)[0] == b[0]
    decreases |b|
  {
    hide IsSpace;
    var s, n := a + b, |b| - 1;
    assert s[|s| - 1] == b[n];
    if IsSpace(b[n]) {
      assert s[..|s| - 1] == a + b[..n];
      TrimEndBehind(a, b[..n]);
    }
  }

  /** Reading a line whose trimmed text is a name, an equals sign and a trimmed value. */
  lemma {:induction false} ReadTrimmed(x: string, name: string, z: string)
    requires IsName(name) && z != "" && !IsSpace(z[0]) && !IsSpace(z[|z| - 1]) && Trim(x) == name + "=" + z
    ensures ReadLine(x) ==
            match ParseEnvAssignmentValue(z) case Err(e) => Err(e) case Ok(v) => Ok(Some(Assignment(name, v)))
  {
    hide IsName, IndexOf, Unquote, TrimStart, TrimEnd, ParseEnvAssignmentValue;
    var y := name + "=" + z;
    NameIsTidy(name);
    EqualsAfterName(name, z);
    assert y[..|name|] == name && y[|name| + 1..] == z && y[0] == name[0];
    assert Trim(z) == z;
  }

  lemma {:induction false} TrimCutLine(name: string, quoted: string)
    requires IsName(name) && quoted != "" && !IsSpace(quoted[0])
    ensures Trim(name + "=" + quoted) == name + "=" + TrimEnd(quoted)
  {
    hide IsName, TrimEnd;
    NameIsTidy(name);
    var x := name + "=" + quoted;
    assert x[0] == name[0];
    TrimEndBehind(name + "=", quoted);
  }

  /** A printed assignment cut inside its quoted value is no assignment. */
  lemma {:induction false} CutLineIsRejected(name: string, v: string, n: nat)
    requires IsName(name) && n <= |EscapeBody(v)|
    ensures ReadLine(name + "=" + ("\"" + EscapeBody(v)[..n])) == Err(FileInvalid)
  {
    hide IsName, EscapeBody, ReadBody, IndexOf, ReadLine, Trim, IsSpace;
    QuoteIsNoSpace();
    var quoted := "\"" + EscapeBody(v)[..n];
    TrimCutLine(name, quoted);
    TrimEndBehind("", quoted);
    var z := TrimEnd(quoted);
    ReadTrimmed(name + "=" + quoted, name, z);
    CutLiteralIsNotRead(v, |z| - 1);
    assert z[1..] == EscapeBody(v)[..|z| - 1];
  }

  lemma QuoteIsNoSpace()
    ensures !IsSpace('"')
  {
  }

  // ---------- where a marker inside a line is found ----------

  lemma FoundBehind(head: string, rest: string, m: string, q: nat)
    requires NoNewline(m) && m != "" && !Contains(head, m) && IndexOf(rest, m) == Some(q)
    ensures IndexOf(head + "\n" + rest, m) == Some(|head| + 1 + q)
  {
    var s := head + "\n" + rest;
    OccursRight(head + "\n", rest, m, |head| + 1 + q);
    IndexOfIsFirst(rest, m);
    ContainsIff(head, m);
    forall p: nat | p < |head| + 1 + q
      ensures !OccursAt(s, m, p)
    {
      if OccursAt(s, m, p) {
        OccursBesideBreak(head, rest, m, p);
      }
    }
    IndexIs(s, m, |head| + 1 + q);
  }

  lemma FoundAhead(line: string, rest: string, m: string, q: nat)
    requires IndexOf(line, m) == Some(q)
    ensures IndexOf(line + rest, m) == Some(q)
  {
    IndexOfIsFirst(line, m);
    OccursLeft(line, rest, m, q);
    forall p: nat | p < q
      ensures !OccursAt(line + rest, m, p)
    {
      OccursLeft(line, rest, m, p);
    }
    IndexIs(line + rest, m, q);
  }

  lemma FoundInsideLine(pre: seq<string>, line: string, post: seq<string>, m: string, q: nat)
    requires NoNewline(m) && m != "" && NoneContains(pre, m) && post != [] && IndexOf(line, m) == Some(q)
    ensures IndexOf(Join(pre + ([line] + post), "\n"), m) == Some(Offset(pre) + q)
  {
    hide IndexOf;
    var rest := Join([line] + post, "\n");
    JoinSplit(pre, [line] + post);
    assert ([line] + post)[1..] == post;
    ConcatAssoc(line, "\n", Join(post, "\n"));
    FoundAhead(line, "\n" + Join(post, "\n"), m, q);
    if pre == [] {
      assert "" + rest == rest;
    } else {
      NotInJoin(pre, m);
      FoundBehind(Join(pre, "\n"), rest, m, q);
    }
  }

  // ---------- a line whose value holds a marker ----------

  lemma MarkerTextIsNotEscaped(c: char)
    requires c == '#' || MarkerChar(c)
    ensures EscapeChar(c) == [c]
  {
  }

  lemma {:induction false} EscapingKeepsPrefix(v: string, m: string)
    requires MarkerText(m) && OccursAt(v, m, 0)
    ensures OccursAt(EscapeBody(v), m, 0)
    decreases |m|
  {
    hide EscapeChar, MarkerChar;
    if m != "" {
      OccursChar(v, m, 0, 0);
      assert v[0] == m[0];
      MarkerTextIsNotEscaped(v[0]);
      forall k | 0 <= k < |m| - 1
        ensures v[1..][k] == m[1..][k]
      {
        OccursChar(v, m, 0, k + 1);
      }
      EscapingKeepsPrefix(v[1..], m[1..]);
      var e := EscapeBody(v);
      assert e == [v[0]] + EscapeBody(v[1..]);
      forall k | 0 <= k < |m|
        ensures e[k] == m[k]
      {
        if k > 0 {
          OccursChar(EscapeBody(v[1..]), m[1..], 0, k - 1);
        }
      }
    }
  }

  /** A marker in a value is still there in the printed literal, behind the printed text that stood before it. */
  lemma {:induction false} EscapingKeepsMarker(v: string, m: string, r: nat)
    requires MarkerText(m) && OccursAt(v, m, r)
    ensures OccursAt(EscapeBody(v), m, |EscapeBody(v[..r])|)
    decreases r
  {
    hide EscapeChar, MarkerChar;
    if r == 0 {
      EscapingKeepsPrefix(v, m);
      assert v[..0] == "";
    } else if v != "" {
      OccursRight([v[0]], v[1..], m, r);
      assert v == [v[0]] + v[1..];
      EscapingKeepsMarker(v[1..], m, r - 1);
      assert v[..r][1..] == v[1..][..r - 1];
      OccursRight(EscapeChar(v[0]), EscapeBody(v[1..]), m, |EscapeBody(v[..r])|);
    }
  }

  lemma {:induction false} EscapeConcat(a: string, b: string)
    ensures EscapeBody(a + b) == EscapeBody(a) + EscapeBody(b)
    decreases |a|
  {
    hide EscapeChar;
    if a == "" {
      assert a + b == b;
    } else {
      assert (a + b)[1..] == a[1..] + b;
      EscapeConcat(a[1..], b);
    }
  }

  lemma EscapeGrows(v: string, q: nat, r: nat)
    requires q < r <= |v|
    ensures |EscapeBody(v[..q])| < |EscapeBody(v[..r])|
  {
    hide EscapeChar;
    assert v[..r] == v[..q] + v[q..r];
    EscapeConcat(v[..q], v[q..r]);
  }

  lemma {:induction false} EscapedMarker(m: string)
    requires MarkerText(m)
    ensures EscapeBody(m) == m
    decreases |m|
  {
    hide EscapeChar, MarkerChar;
    if m != "" {
      MarkerTextIsNotEscaped(m[0]);
      EscapedMarker(m[1..]);
    }
  }

  /** The first marker of a value is the first one of its printed literal. */
  lemma {:induction false} FirstInLiteral(v: string, m: string)
    requires MarkerText(m) && m != "" && IndexOf(v, m).Some?
    ensures IndexOf(EscapeBody(v), m) == Some(|EscapeBody(v[..IndexOf(v, m).value])|)
  {
    hide IndexOf, EscapeBody, MarkerChar;
    var r := IndexOf(v, m).value;
    IndexOfIsFirst(v, m);
    EscapingKeepsMarker(v, m, r);
    var place := |EscapeBody(v[..r])|;
    forall p: nat | p < place
      ensures !OccursAt(EscapeBody(v), m, p)
    {
      if OccursAt(EscapeBody(v), m, p) {
        var q := EscapingAddsNoMarker(v, m, p);
        if r < q {
          EscapeGrows(v, r, q);
        }
      }
    }
    IndexIs(EscapeBody(v), m, place);
  }

  // ---------- a line whose value holds a marker ----------

  lemma HashIsNotPlain(v: string, m: string, r: nat)
    requires MarkerLike(m) && OccursAt(v, m, r)
    ensures !IsPlainValue(v)
  {
    OccursChar(v, m, r, 0);
    assert !PlainValueChar(v[r]);
  }

  lemma NoHashBefore(name: string, p: nat)
    requires IsName(name) && p < |name| + 2
    ensures (name + "=\"")[p] != '#'
  {
    assert p < |name| ==> NameChar(name[p]);
  }

  /**
   * Where a printed line holds its first marker: behind the name, the equals sign, the quote and the text before
   * it.
   */
  function PlaceInLine(a: Assignment, m: string): nat
    requires Contains(a.value, m)
  {
    |a.name| + 2 + |EscapeBody(a.value[..IndexOf(a.value, m).value])|
  }

  lemma {:induction false} LineWithMarker(a: Assignment, m: string)
    requires IsName(a.name) && MarkerLike(m) && Contains(a.value, m)
    ensures PrintLine(a) == a.name + "=\"" + (EscapeBody(a.value) + "\"")
    ensures IndexOf(PrintLine(a), m) == Some(PlaceInLine(a, m))
  {
    hide IndexOf, EscapeBody, IsPlainValue, IsName;
    MarkerStart(m);
    HashIsNotPlain(a.value, m, IndexOf(a.value, m).value);
    FirstInLiteral(a.value, m);
    var e := EscapeBody(a.value);
    var front := a.name + "=\"";
    var line := PrintLine(a);
    assert line == front + (e + "\"");
    var p := IndexOf(e, m).value;
    FoundAhead(e, "\"", m, p);
    IndexOfIsFirst(e + "\"", m);
    OccursRight(front, e + "\"", m, |front| + p);
    forall k: nat | k < |front| + p
      ensures !OccursAt(line, m, k)
    {
      if k < |front| {
        NoHashBefore(a.name, k);
        assert line[k] == front[k];
        Differs(line, m, k, 0);
      } else {
        OccursRight(front, e + "\"", m, k);
      }
    }
    IndexIs(line, m, |front| + p);
  }

  lemma {:induction false} CutLine(a: Assignment, m: string)
    requires IsName(a.name) && MarkerLike(m) && Contains(a.value, m)
    ensures PlaceInLine(a, m) <= |PrintLine(a)|
    ensures ReadLine(PrintLine(a)[..PlaceInLine(a, m)]) == Err(FileInvalid)
  {
    hide IndexOf, ReadLine, IsName, EscapeBody, PrintLine, MarkerLike;
    var v := a.value;
    var r := IndexOf(v, m).value;
    LineWithMarker(a, m);
    assert v == v[..r] + v[r..];
    EscapeConcat(v[..r], v[r..]);
    var n := |EscapeBody(v[..r])|;
    CutLineIsRejected(a.name, v, n);
    assert PrintLine(a)[..PlaceInLine(a, m)] == a.name + "=" + ("\"" + EscapeBody(v)[..n]);
  }

  // ---------- tidiness of what is cut out ----------

  lemma TidyIfPrintable(x: string)
    requires forall i :: 0 <= i < |x| ==> x[i] >= ' '
    ensures IsTidyLine(x)
  {
  }

  lemma PrintedLineHasNoControls(a: Assignment)
    requires IsName(a.name)
    ensures forall i :: 0 <= i < |PrintLine(a)| ==> PrintLine(a)[i] >= ' '
  {
    hide FormatEnvAssignmentValue;
    var t := PrintLine(a);
    var v := FormatEnvAssignmentValue(a.value);
    PrintedValueIsTidy(a.value);
    forall i | 0 <= i < |t|
      ensures t[i] >= ' '
    {
      if i < |a.name| {
        assert NameChar(a.name[i]);
      } else if i > |a.name| {
        assert t[i] == v[i - |a.name| - 1];
      }
    }
  }

  lemma CutIsTidy(a: Assignment, p: nat, q: nat)
    requires IsName(a.name) && p <= q <= |PrintLine(a)|
    ensures IsTidyLine(PrintLine(a)[p..q])
  {
    hide IsTidyLine, FormatEnvAssignmentValue, IsName;
    PrintedLineHasNoControls(a);
    TidyIfPrintable(PrintLine(a)[p..q]);
  }

  // ---------- the lines of a block inside a file ----------

  /** The lines of a printed block up to one of its assignments. */
  function LinesBefore(kind: Kind, block: seq<Assignment>, i: nat): seq<string>
    requires i <= |block|
  {
    [MarkersOf(kind).begin] + InnerOf(kind, block[..i])
  }

  lemma {:induction false} PrintedSplit(block: seq<Assignment>, i: nat)
    requires i < |block|
    ensures PrintLines(block) == PrintLines(block[..i]) + ([PrintLine(block[i])] + PrintLines(block[i + 1..]))
  {
    hide PrintLine;
  }

  /** The lines of a file around one assignment of its block. */
  lemma {:induction false} LinesAround(pre: seq<string>, kind: Kind, block: seq<Assignment>, post: seq<string>, i: nat)
    requires i < |block|
    ensures pre + (BlockLines(MarkersOf(kind), InnerOf(kind, block)) + post)
         == pre + LinesBefore(kind, block, i)
            + ([PrintLine(block[i])] + (PrintLines(block[i + 1..]) + ([MarkersOf(kind).finish] + post)))
  {
    hide MarkersOf, CommentsOf, PrintLines, PrintLine;
    var m := MarkersOf(kind);
    PrintedSplit(block, i);
    var p, line, rest := PrintLines(block[..i]), [PrintLine(block[i])], PrintLines(block[i + 1..]);
    var c := CommentsOf(kind);
    assert pre + ([m.begin] + (c + (p + (line + rest))) + [m.finish] + post) ==
           pre + ([m.begin] + (c + p)) + (line + (rest + ([m.finish] + post)));
  }

  /** The first assignment whose value holds a text. */
  function FirstHolding(block: seq<Assignment>, m: string): (i: nat)
    ensures i <= |block|
    ensures i < |block| ==> Contains(block[i].value, m)
  {
    if block == [] then 0 else if Contains(block[0].value, m) then 0 else 1 + FirstHolding(block[1..], m)
  }

  predicate HoldsNone(block: seq<Assignment>, m: string) {
    forall i :: 0 <= i < |block| ==> !Contains(block[i].value, m)
  }

  lemma {:induction false} FirstHoldingIsFirst(block: seq<Assignment>, m: string)
    ensures HoldsNone(block[..FirstHolding(block, m)], m)
    ensures FirstHolding(block, m) == |block| <==> HoldsNone(block, m)
    decreases |block|
  {
    hide Contains;
    if block != [] && !Contains(block[0].value, m) {
      var i := FirstHolding(block[1..], m);
      FirstHoldingIsFirst(block[1..], m);
      assert block[..i + 1] == [block[0]] + block[1..][..i];
      assert block == [block[0]] + block[1..];
    }
  }

  /** Where a marker that only values can hold is found in a file. */
  lemma {:induction false} FoundInValue(
      pre: seq<string>, kind: Kind, block: seq<Assignment>, post: seq<string>, m: string)
    requires Named(block) && MarkerLike(m) && NoNewline(m) && NoneContains(pre, m) && post != []
    requires !Contains(MarkersOf(kind).begin, m)
    ensures var i := FirstHolding(block, m);
      i < |block| ==>
        IndexOf(WithBlock(pre, MarkersOf(kind), InnerOf(kind, block), post), m)
        == Some(Offset(pre + LinesBefore(kind, block, i)) + PlaceInLine(block[i], m))
  {
    hide IndexOf, MarkersOf, Join, PrintLine, InnerOf, MarkerLike, IsName, BlockLines, PlaceInLine;
    var i := FirstHolding(block, m);
    if i < |block| {
      MarkerStart(m);
      LinesAround(pre, kind, block, post, i);
      FirstHoldingIsFirst(block, m);
      InnerHolds(kind, block[..i], m);
      NoneContainsConcat([MarkersOf(kind).begin], InnerOf(kind, block[..i]), m);
      NoneContainsConcat(pre, LinesBefore(kind, block, i), m);
      LineWithMarker(block[i], m);
      FoundInsideLine(pre + LinesBefore(kind, block, i), PrintLine(block[i]),
                      PrintLines(block[i + 1..]) + ([MarkersOf(kind).finish] + post), m, PlaceInLine(block[i], m));
    }
  }

  // ---------- cutting a text inside its lines ----------

  lemma {:induction false} JoinAround(pre: seq<string>, line: string, post: seq<string>)
    ensures Join(pre + ([line] + post), "\n") == Before(pre) +
        (line + (if post == [] then "" else "\n" + Join(post, "\n")))
    ensures |Before(pre)| == Offset(pre)
  {
    JoinSplit(pre, [line] + post);
    assert ([line] + post)[1..] == post;
    if post == [] {
      assert [line] + post == [line];
      assert line + "" == line;
    } else {
      ConcatAssoc(line, "\n", Join(post, "\n"));
    }
  }

  /** The text up to a place in a line. */
  lemma {:induction false} JoinUpTo(pre: seq<string>, line: string, post: seq<string>, q: nat)
    requires q <= |line|
    ensures Offset(pre) + q <= |Join(pre + ([line] + post), "\n")|
    ensures Join(pre + ([line] + post), "\n")[..Offset(pre) + q] == Join(pre + [line[..q]], "\n")
  {
    hide Join, Before, Offset;
    JoinAround(pre, line, post);
    JoinAround(pre, line[..q], []);
    assert pre + ([line[..q]] + []) == pre + [line[..q]];
    var tail := if post == [] then "" else "\n" + Join(post, "\n");
    assert (Before(pre) + (line + tail))[..|Before(pre)| + q] == Before(pre) + line[..q];
    assert line[..q] + "" == line[..q];
  }

  /** The text from a place in a line on. */
  lemma {:induction false} JoinFrom(pre: seq<string>, line: string, post: seq<string>, p: nat)
    requires p <= |line|
    ensures Offset(pre) + p <= |Join(pre + ([line] + post), "\n")|
    ensures Join(pre + ([line] + post), "\n")[Offset(pre) + p..] == Join([line[p..]] + post, "\n")
  {
    hide Join, Before, Offset;
    JoinAround(pre, line, post);
    JoinAround([], line[p..], post);
    NothingStands();
    assert [] + ([line[p..]] + post) == [line[p..]] + post;
    var tail := if post == [] then "" else "\n" + Join(post, "\n");
    assert (Before(pre) + (line + tail))[|Before(pre)| + p..] == line[p..] + tail;
    assert "" + (line[p..] + tail) == line[p..] + tail;
  }

  lemma NothingStands()
    ensures Before([]) == ""
  {
  }

  /** What stands between a place in one line and a place in a later one. */
  lemma {:induction false} SliceOfLines(
      pre: seq<string>, line: string, p: nat, mid: seq<string>, last: string, q: nat, post: seq<string>)
    requires p <= |line| && q <= |last|
    ensures var c := Join(pre + ([line] + (mid + ([last] + post))), "\n");
      var x, y := Offset(pre) + p, Offset(pre + ([line] + mid)) + q;
      x <= y <= |c| && c[x..y] == Join([line[p..]] + (mid + [last[..q]]), "\n")
  {
    hide Join, Offset;
    var c := Join(pre + ([line] + (mid + ([last] + post))), "\n");
    var x, y := Offset(pre) + p, Offset(pre + ([line] + mid)) + q;
    assert pre + ([line] + (mid + ([last] + post))) == (pre + ([line] + mid)) + ([last] + post);
    JoinUpTo(pre + ([line] + mid), last, post, q);
    assert (pre + ([line] + mid)) + [last[..q]] == pre + ([line] + (mid + [last[..q]]));
    JoinFrom(pre, line, mid + [last[..q]], p);
    assert c[x..y] == c[..y][x..];
  }

  /** What stands between two places in one line. */
  lemma {:induction false} SliceOfLine(pre: seq<string>, line: string, p: nat, q: nat, post: seq<string>)
    requires p <= q <= |line|
    ensures var c := Join(pre + ([line] + post), "\n");
      Offset(pre) + q <= |c| && c[Offset(pre) + p..Offset(pre) + q] == line[p..q]
  {
    hide Join, Offset, Before;
    JoinAround(pre, line, post);
    var tail := if post == [] then "" else "\n" + Join(post, "\n");
    assert (Before(pre) + (line + tail))[|Before(pre)| + p..|Before(pre)| + q] == line[p..q];
  }

  lemma {:induction false} OffsetsGrow(pre: seq<string>, line: string, mid: seq<string>)
    ensures Offset(pre + ([line] + mid)) > Offset(pre) + |line|
  {
    hide Join;
    JoinSplit(pre, [line] + mid);
    OffsetConcat(pre, [line] + mid);
    JoinAround([], line, mid);
    assert [] + ([line] + mid) == [line] + mid;
    NothingStands();
  }

  // ---------- reading what was cut out ----------

  /** Only one kind of error comes out of a line. */
  /** Lines that end in a cut assignment are rejected. */
  lemma {:induction false} CutLinesAreRejected(
      first: string, mid: seq<string>, block: seq<Assignment>, x: string, env: Env)
    requires Named(block) && ReadLine(x) == Err(FileInvalid) && AllComments(mid)
    ensures ReadLines([first] + (mid + (PrintLines(block) + [x])), env) == Err(FileInvalid)
  {
    hide ReadLine, IsName, PrintLine, Assigned;
    var rest := mid + (PrintLines(block) + [x]);
    assert ([first] + rest)[1..] == rest;
    LineErrors(first);
    if ReadLine(first).Ok? {
      var next := match ReadLine(first).value case None => env case Some(a) => env[a.name := a.value];
      CommentsAreSkipped(mid, PrintLines(block) + [x], next);
      LinesAreReadBack(block, [x], next);
      assert ReadLines([x], Assigned(next, block)) == Err(FileInvalid);
    }
  }

  lemma {:induction false} TidySplit(lines: seq<string>)
    requires lines != [] && AllTidy(lines)
    ensures SplitAtBreaks(Join(lines, "\n")) == lines
  {
    hide Join, DropCr;
    LinesOfJoin(lines);
    NoCrsToDrop(lines);
  }

  lemma {:induction false} PrintedAreTidy(block: seq<Assignment>)
    requires Named(block)
    ensures AllTidy(PrintLines(block))
  {
    hide IsTidyLine, IsName, PrintLine;
    forall i | 0 <= i < |block|
      ensures IsTidyLine(PrintLine(block[i]))
    {
      PrintedLineIsTidy(block[i]);
    }
  }

  // ---------- the block's own parse ----------

  /** The block is read back, wherever it stands, when no value holds its END marker. */
  lemma {:induction false} OwnBlockIsRead(pre: seq<string>, kind: Kind, block: seq<Assignment>, post: seq<string>)
    requires Named(block) && HoldsNone(block, MarkersOf(kind).finish) && NoneOf(pre, MarkersOf(kind)) && post != []
    ensures ParseBlock(WithBlock(pre, MarkersOf(kind), InnerOf(kind, block), post), MarkersOf(kind))
         == Ok(Some(Assigned(map[], block)))
  {
    hide Join, MarkersOf, BlockBody, Assigned, ReadLines, SplitAtBreaks, CommentsOf, IsName, Between, WithBlock;
    hide Contains;
    hide MarkerLike;
    var m := MarkersOf(kind);
    MarkersAreApart(kind, kind);
    InnerHolds(kind, block, m.finish);
    BodyIsBetween(pre, m, InnerOf(kind, block), post);
    CommentsAreTidy(kind);
    BodyIsReadBack(CommentsOf(kind), block);
  }

  /** It is rejected, wherever it stands, when a value does. */
  lemma {:induction false} OwnBlockIsCut(pre: seq<string>, kind: Kind, block: seq<Assignment>, post: seq<string>)
    requires Named(block) && !HoldsNone(block, MarkersOf(kind).finish) && NoneOf(pre, MarkersOf(kind)) && post != []
    ensures ParseBlock(WithBlock(pre, MarkersOf(kind), InnerOf(kind, block), post), MarkersOf(kind)) == Err(FileInvalid)
  {
    hide Join, MarkersOf, ReadLines, SplitAtBreaks, CommentsOf, IsName, Contains, MarkerLike, ReadLine;
    hide PrintLine, Offset;
    hide IndexOf, PrintLines, PlaceInLine, HoldsNone, IsTidyLine;
    var m := MarkersOf(kind);
    var i := FirstHolding(block, m.finish);
    var before := block[..i];
    FirstHoldingIsFirst(block, m.finish);
    MarkersAreApart(kind, kind);
    MarkerStart(m.begin);
    FoundInValue(pre, kind, block, post, m.finish);
    LinesAround(pre, kind, block, post, i);
    FoundInLine(pre, m.begin, InnerOf(kind, block) + ([m.finish] + post));
    FirstLineIsBegin(pre, m, InnerOf(kind, block), post);
    CutLine(block[i], m.finish);
    CutIsTidy(block[i], 0, PlaceInLine(block[i], m.finish));
    var x := PrintLine(block[i])[..PlaceInLine(block[i], m.finish)];
    assert PrintLine(block[i])[0..PlaceInLine(block[i], m.finish)] == x;
    BodyUpToCut(pre, kind, block, post, i, PlaceInLine(block[i], m.finish));
    CommentsAreTidy(kind);
    OwnLinesAreRejected(kind, before, x);
  }

  lemma FirstLineIsBegin(pre: seq<string>, m: Markers, inner: seq<string>, post: seq<string>)
    ensures pre + (BlockLines(m, inner) + post) == pre + ([m.begin] + (inner + ([m.finish] + post)))
  {
  }

  /** The text from the BEGIN marker's end to a place in a printed assignment. */
  lemma {:induction false} BodyUpToCut(
      pre: seq<string>, kind: Kind, block: seq<Assignment>, post: seq<string>, i: nat, q: nat)
    requires i < |block| && q <= |PrintLine(block[i])|
    ensures var c := WithBlock(pre, MarkersOf(kind), InnerOf(kind, block), post);
      var x, y := Offset(pre) + |MarkersOf(kind).begin|, Offset(pre + LinesBefore(kind, block, i)) + q;
      x <= y <= |c| && c[x..y] == Join([""] + (InnerOf(kind, block[..i]) + [PrintLine(block[i])[..q]]), "\n")
  {
    hide Join, MarkersOf, CommentsOf, PrintLine, PrintLines, Offset, InnerOf;
    var m := MarkersOf(kind);
    var inner := InnerOf(kind, block[..i]);
    var tail := PrintLines(block[i + 1..]) + ([m.finish] + post);
    LinesAround(pre, kind, block, post, i);
    SliceOfLines(pre, m.begin, |m.begin|, inner, PrintLine(block[i]), q, tail);
    assert m.begin[|m.begin|..] == "";
    assert pre + ([m.begin] + (inner + ([PrintLine(block[i])] + tail)))
        == pre + LinesBefore(kind, block, i) + ([PrintLine(block[i])] + tail);
  }

  lemma {:induction false} OwnLinesAreRejected(kind: Kind, before: seq<Assignment>, x: string)
    requires Named(before) && ReadLine(x) == Err(FileInvalid) && IsTidyLine(x)
    ensures ReadLines(SplitAtBreaks(Join([""] + (InnerOf(kind, before) + [x]), "\n")), map[]) == Err(FileInvalid)
  {
    hide Join, ReadLine, IsName, CommentsOf, PrintLine, PrintLines, IsTidyLine, SplitAtBreaks;
    CommentsAreTidy(kind);
    PrintedAreTidy(before);
    EmptyIsTidy();
    var lines := [""] + (InnerOf(kind, before) + [x]);
    assert lines == [""] + (CommentsOf(kind) + (PrintLines(before) + [x]));
    TidySplit(lines);
    CutLinesAreRejected("", CommentsOf(kind), before, x, map[]);
  }

  lemma EmptyIsTidy()
    ensures IsTidyLine("")
  {
  }

  // ---------- the other block's parse ----------

  /** A value in which a BEGIN marker is followed by its END marker. */
  predicate Encloses(v: string, o: Markers) {
    && IndexOf(v, o.begin).Some? && IndexOf(v, o.finish).Some?
    && IndexOf(v, o.begin).value < IndexOf(v, o.finish).value
  }

  /** The text between the two markers in a value. */
  function Enclosed(v: string, o: Markers): string
    requires Encloses(v, o)
  {
    var x, y := IndexOf(v, o.begin).value + |o.begin|, IndexOf(v, o.finish).value;
    if x <= y then v[x..y] else ""
  }

  /** The printed form of that text, as the parser meets it, is a blank line, a comment or an assignment. */
  predicate ReadsAsLine(text: string) {
    ReadLine(EscapeBody(text)).Ok?
  }

  /**
   * Values that do not mislead the parser of the other block: none holds a marker of it, or the first to
   * hold its BEGIN is the first to hold its END, has them in this order, and reads well between them.
   */
  predicate HarmlessToOther(block: seq<Assignment>, o: Markers) {
    || (HoldsNone(block, o.begin) && HoldsNone(block, o.finish))
    || (var i := FirstHolding(block, o.begin);
        i < |block| && i == FirstHolding(block, o.finish) && Encloses(block[i].value, o)
        && ReadsAsLine(Enclosed(block[i].value, o)))
  }

  /** What such values make the parser of the other block find: nothing, or at most one assignment. */
  function StrayOf(block: seq<Assignment>, o: Markers): Option<Env>
    requires HarmlessToOther(block, o)
  {
    if HoldsNone(block, o.begin) && HoldsNone(block, o.finish) then None
    else
      match ReadLine(EscapeBody(Enclosed(block[FirstHolding(block, o.begin)].value, o))).value
      case None => Some(map[])
      case Some(a) => Some(map[a.name := a.value])
  }

  /** A file that holds no line of the other block before this one. */
  predicate LeadingBlock(pre: seq<string>, kind: Kind, block: seq<Assignment>, post: seq<string>) {
    Named(block) && NoneOf(pre, MarkersOf(Other(kind))) && post != []
  }

  /** A file that holds this block and no line of the other one. */
  predicate OnlyBlock(pre: seq<string>, kind: Kind, block: seq<Assignment>, post: seq<string>) {
    LeadingBlock(pre, kind, block, post) && NoneOf(post, MarkersOf(Other(kind)))
  }

  lemma {:induction false} OtherAbsent(
      pre: seq<string>, kind: Kind, block: seq<Assignment>, post: seq<string>, x: string)
    requires Named(block) && NoneContains(pre, x) && NoneContains(post, x) && MarkerLike(x) && NoNewline(x)
    requires !Contains(MarkersOf(kind).begin, x) && !Contains(MarkersOf(kind).finish, x) && HoldsNone(block, x)
    ensures !Contains(WithBlock(pre, MarkersOf(kind), InnerOf(kind, block), post), x)
  {
    hide Contains, MarkersOf, InnerOf, MarkerLike, IsName, Join;
    var m := MarkersOf(kind);
    var inner := InnerOf(kind, block);
    MarkerStart(x);
    InnerHolds(kind, block, x);
    NoneContainsConcat([m.begin], inner, x);
    NoneContainsConcat([m.begin] + inner, [m.finish], x);
    NoneContainsConcat(BlockLines(m, inner), post, x);
    NoneContainsConcat(pre, BlockLines(m, inner) + post, x);
    NotInJoin(pre + (BlockLines(m, inner) + post), x);
  }

  /** Where the file holds the first marker `x` of its values. */
  function PlaceInFile(pre: seq<string>, kind: Kind, block: seq<Assignment>, x: string): nat
    requires FirstHolding(block, x) < |block|
  {
    var i := FirstHolding(block, x);
    Offset(pre + LinesBefore(kind, block, i)) + PlaceInLine(block[i], x)
  }

  /** Where a marker of the other block that a value holds is found. */
  lemma {:induction false} OtherMarkerFound(
      pre: seq<string>, kind: Kind, block: seq<Assignment>, post: seq<string>, x: string)
    requires LeadingBlock(pre, kind, block, post)
    requires x == MarkersOf(Other(kind)).begin || x == MarkersOf(Other(kind)).finish
    ensures MarkerLike(x) && NoNewline(x)
    ensures FirstHolding(block, x) < |block| ==>
      IndexOf(WithBlock(pre, MarkersOf(kind), InnerOf(kind, block), post), x) == Some(PlaceInFile(pre, kind, block, x))
  {
    hide IndexOf, MarkersOf, InnerOf, WithBlock, PlaceInLine, IsName, Offset, MarkerLike, LinesBefore;
    MarkersAreApart(kind, Other(kind));
    MarkersAreApart(Other(kind), Other(kind));
    FoundInValue(pre, kind, block, post, x);
  }

  /** That a marker no value holds is not found. */
  lemma {:induction false} OtherMarkerAbsent(
      pre: seq<string>, kind: Kind, block: seq<Assignment>, post: seq<string>, x: string)
    requires OnlyBlock(pre, kind, block, post)
    requires x == MarkersOf(Other(kind)).begin || x == MarkersOf(Other(kind)).finish
    ensures FirstHolding(block, x) == |block| ==>
      IndexOf(WithBlock(pre, MarkersOf(kind), InnerOf(kind, block), post), x) == None
  {
    hide IndexOf, MarkersOf, InnerOf, WithBlock, IsName, MarkerLike;
    MarkersAreApart(kind, Other(kind));
    MarkersAreApart(Other(kind), Other(kind));
    FirstHoldingIsFirst(block, x);
    if FirstHolding(block, x) == |block| {
      OtherAbsent(pre, kind, block, post, x);
    }
  }

  lemma {:induction false} LinesBeforeLater(pre: seq<string>, kind: Kind, block: seq<Assignment>, i: nat, j: nat)
    requires i < j <= |block|
    ensures pre + LinesBefore(kind, block, j)
         == pre + LinesBefore(kind, block, i) + ([PrintLine(block[i])] + PrintLines(block[i + 1..j]))
  {
    hide MarkersOf, CommentsOf, PrintLine, PrintLines;
    PrintedSplit(block[..j], i);
    assert block[..j][..i] == block[..i] && block[..j][i + 1..] == block[i + 1..j];
    var b, c := [MarkersOf(kind).begin], CommentsOf(kind);
    var p, q := PrintLines(block[..i]), [PrintLine(block[i])] + PrintLines(block[i + 1..j]);
    assert pre + (b + (c + (p + q))) == pre + (b + (c + p)) + q;
  }

  lemma {:induction false} LineHolds(a: Assignment, x: string)
    requires IsName(a.name) && MarkerLike(x) && Contains(a.value, x)
    ensures PlaceInLine(a, x) + |x| <= |PrintLine(a)|
  {
    hide IndexOf, PrintLine, PlaceInLine, MarkerLike, IsName;
    LineWithMarker(a, x);
  }

  lemma {:induction false} LaterPlace(
      pre: seq<string>, kind: Kind, block: seq<Assignment>, x: string, y: string)
    requires Named(block) && MarkerLike(x) && MarkerLike(y)
    requires FirstHolding(block, x) < FirstHolding(block, y) < |block|
    ensures PlaceInFile(pre, kind, block, x) + |x| < PlaceInFile(pre, kind, block, y)
  {
    hide IndexOf, MarkersOf, PrintLine, PlaceInLine, IsName, Offset, MarkerLike, LinesBefore, PrintLines;
    var i, j := FirstHolding(block, x), FirstHolding(block, y);
    LinesBeforeLater(pre, kind, block, i, j);
    OffsetsGrow(pre + LinesBefore(kind, block, i), PrintLine(block[i]), PrintLines(block[i + 1..j]));
    LineHolds(block[i], x);
  }

  /** BEGIN and END in two values: the second value is cut, and a cut line is rejected. */
  lemma {:induction false} OtherAcross(pre: seq<string>, kind: Kind, block: seq<Assignment>, post: seq<string>)
    requires LeadingBlock(pre, kind, block, post)
    requires var o := MarkersOf(Other(kind));
      FirstHolding(block, o.begin) < FirstHolding(block, o.finish) < |block|
    ensures ParseBlock(WithBlock(pre, MarkersOf(kind), InnerOf(kind, block), post), MarkersOf(Other(kind))) ==
        Err(FileInvalid)
  {
    hide IndexOf, MarkersOf, InnerOf, PlaceInLine, IsName, Offset, MarkerLike, LinesBefore, PrintLines;
    hide PrintLine, Join;
    hide ReadLines, SplitAtBreaks, NoneOf, HoldsNone, ReadLine, IsTidyLine;
    var o := MarkersOf(Other(kind));
    var i, j := FirstHolding(block, o.begin), FirstHolding(block, o.finish);
    OtherMarkerFound(pre, kind, block, post, o.begin);
    OtherMarkerFound(pre, kind, block, post, o.finish);
    LaterPlace(pre, kind, block, o.begin, o.finish);
    LineHolds(block[i], o.begin);
    LineHolds(block[j], o.finish);
    var p, q := PlaceInLine(block[i], o.begin) + |o.begin|, PlaceInLine(block[j], o.finish);
    var first, x := PrintLine(block[i])[p..], PrintLine(block[j])[..q];
    BodyAcross(pre, kind, block, post, i, p, j, q);
    CutLine(block[j], o.finish);
    CutIsTidy(block[i], p, |PrintLine(block[i])|);
    CutIsTidy(block[j], 0, q);
    assert PrintLine(block[i])[p..|PrintLine(block[i])|] == first && PrintLine(block[j])[0..q] == x;
    AcrossIsRejected(first, block[i + 1..j], x);
  }

  lemma {:induction false} AcrossIsRejected(first: string, mid: seq<Assignment>, x: string)
    requires Named(mid) && IsTidyLine(first) && IsTidyLine(x) && ReadLine(x) == Err(FileInvalid)
    ensures ReadLines(SplitAtBreaks(Join([first] + (PrintLines(mid) + [x]), "\n")), map[]) == Err(FileInvalid)
  {
    hide Join, ReadLine, IsName, PrintLine, PrintLines, IsTidyLine, SplitAtBreaks;
    PrintedAreTidy(mid);
    var lines := [first] + (PrintLines(mid) + [x]);
    TidySplit(lines);
    assert lines == [first] + ([] + (PrintLines(mid) + [x]));
    CutLinesAreRejected(first, [], mid, x, map[]);
  }

  lemma {:induction false} BodyAcross(
      pre: seq<string>, kind: Kind, block: seq<Assignment>, post: seq<string>, i: nat, p: nat, j: nat, q: nat)
    requires i < j < |block| && p <= |PrintLine(block[i])| && q <= |PrintLine(block[j])|
    ensures var c := WithBlock(pre, MarkersOf(kind), InnerOf(kind, block), post);
      var x, y := Offset(pre + LinesBefore(kind, block, i)) + p, Offset(pre + LinesBefore(kind, block, j)) + q;
      && x <= y <= |c|
      && c[x..y] == Join([PrintLine(block[i])[p..]] + (PrintLines(block[i + 1..j]) + [PrintLine(block[j])[..q]]), "\n")
  {
    hide Join, MarkersOf, InnerOf, PrintLine, PrintLines, Offset, LinesBefore, BlockLines;
    var before, mid := pre + LinesBefore(kind, block, i), PrintLines(block[i + 1..j]);
    var tail := PrintLines(block[j + 1..]) + ([MarkersOf(kind).finish] + post);
    LinesAround(pre, kind, block, post, j);
    LinesBeforeLater(pre, kind, block, i, j);
    SliceOfLines(before, PrintLine(block[i]), p, mid, PrintLine(block[j]), q, tail);
    assert before + ([PrintLine(block[i])] + (mid + ([PrintLine(block[j])] + tail)))
        == before + ([PrintLine(block[i])] + mid) + ([PrintLine(block[j])] + tail);
  }

  // ---------- both markers in one value ----------

  lemma OneHashOnly(m: string)
    requires MarkerLike(m)
    ensures forall k :: 0 < k < |m| ==> m[k] != '#'
  {
    forall k | 0 < k < |m|
      ensures m[k] != '#'
    {
      assert MarkerChar(m[k]);
    }
  }

  /** Markers do not overlap. */
  lemma {:induction false} EnclosedIsBehind(v: string, o: Markers)
    requires Encloses(v, o) && MarkerLike(o.begin) && MarkerLike(o.finish)
    ensures IndexOf(v, o.begin).value + |o.begin| <= IndexOf(v, o.finish).value
  {
    hide IndexOf;
    var x, y := IndexOf(v, o.begin).value, IndexOf(v, o.finish).value;
    OccursChar(v, o.finish, y, 0);
    OneHashOnly(o.begin);
    if y < x + |o.begin| {
      OccursChar(v, o.begin, x, y - x);
    }
  }

  /** In the printed line the markers enclose the printed form of what they enclose in the value. */
  lemma {:induction false} PrintedEnclosed(a: Assignment, o: Markers)
    requires IsName(a.name) && Encloses(a.value, o) && MarkerLike(o.begin) && MarkerLike(o.finish)
    ensures var p, q := PlaceInLine(a, o.begin) + |o.begin|, PlaceInLine(a, o.finish);
      p <= q <= |PrintLine(a)| && PrintLine(a)[p..q] == EscapeBody(Enclosed(a.value, o))
  {
    hide IndexOf, EscapeBody, IsName, MarkerLike, PrintLine;
    var v := a.value;
    var x, y := IndexOf(v, o.begin).value, IndexOf(v, o.finish).value;
    EnclosedIsBehind(v, o);
    MarkerStart(o.begin);
    LineWithMarker(a, o.finish);
    var head, mid, tail := v[..x], v[x + |o.begin|..y], v[y..];
    MarkerStandsThere(v, o.begin, x);
    assert v == head + (o.begin + (mid + tail));
    assert v[..y] == head + (o.begin + mid);
    EscapedMarker(o.begin);
    EscapeConcat(mid, tail);
    EscapeConcat(o.begin, mid + tail);
    EscapeConcat(head, o.begin + (mid + tail));
    EscapeConcat(o.begin, mid);
    EscapeConcat(head, o.begin + mid);
    SliceOut(a.name + "=\"", EscapeBody(head), o.begin, EscapeBody(mid), EscapeBody(tail), "\"");
  }

  lemma MarkerStandsThere(v: string, m: string, x: nat)
    requires OccursAt(v, m, x)
    ensures v[x..x + |m|] == m
  {
  }

  lemma SliceOut(front: string, head: string, m: string, mid: string, tail: string, end: string)
    ensures var line := front + ((head + (m + (mid + tail))) + end);
      line[|front| + |head| + |m|..|front| + |head + (m + mid)|] == mid
  {
    var line := front + ((head + (m + (mid + tail))) + end);
    assert line == (front + head + m) + (mid + (tail + end));
  }

  /** Within one value the printed places keep the order of the value's. */
  lemma {:induction false} PlacesInOneValue(a: Assignment, x: string, y: string)
    requires Contains(a.value, x) && Contains(a.value, y)
    ensures PlaceInLine(a, x) < PlaceInLine(a, y) <==> IndexOf(a.value, x).value < IndexOf(a.value, y).value
    ensures PlaceInLine(a, x) > PlaceInLine(a, y) <==> IndexOf(a.value, x).value > IndexOf(a.value, y).value
  {
    hide IndexOf, EscapeBody;
    var r, t := IndexOf(a.value, x).value, IndexOf(a.value, y).value;
    if r < t {
      EscapeGrows(a.value, r, t);
    } else if t < r {
      EscapeGrows(a.value, t, r);
    }
  }

  lemma {:induction false} OneLineIsRead(text: string)
    requires IsTidyLine(text)
    ensures ReadLines(SplitAtBreaks(text), map[]) ==
      match ReadLine(text)
      case Err(e) => Err(e)
      case Ok(None) => Ok(map[])
      case Ok(Some(a)) => Ok(map[a.name := a.value])
  {
    hide ReadLine, IsTidyLine, SplitAtBreaks;
    OneLine(text);
    TidySplit([text]);
    assert [text][1..] == [];
  }

  lemma OneLine(x: string)
    ensures Join([x], "\n") == x
  {
  }

  /** BEGIN and END in one value, in this order: the parser reads what they enclose as one line. */
  lemma {:induction false} OtherInOne(pre: seq<string>, kind: Kind, block: seq<Assignment>, post: seq<string>)
    requires LeadingBlock(pre, kind, block, post)
    requires var o := MarkersOf(Other(kind));
      var i := FirstHolding(block, o.begin);
      i == FirstHolding(block, o.finish) < |block| && Encloses(block[i].value, o)
    ensures var o := MarkersOf(Other(kind));
      ParseBlock(WithBlock(pre, MarkersOf(kind), InnerOf(kind, block), post), o) ==
      match ReadLine(EscapeBody(Enclosed(block[FirstHolding(block, o.begin)].value, o)))
      case Err(e) => Err(e)
      case Ok(None) => Ok(Some(map[]))
      case Ok(Some(a)) => Ok(Some(map[a.name := a.value]))
  {
    hide IndexOf, MarkersOf, InnerOf, PlaceInLine, IsName, Offset, MarkerLike, LinesBefore, PrintLines;
    hide PrintLine, Join;
    hide ReadLines, SplitAtBreaks, NoneOf, HoldsNone, ReadLine, IsTidyLine, Encloses, Enclosed, EscapeBody;
    hide BlockLines;
    var o := MarkersOf(Other(kind));
    var i := FirstHolding(block, o.begin);
    OtherMarkerFound(pre, kind, block, post, o.begin);
    OtherMarkerFound(pre, kind, block, post, o.finish);
    PrintedEnclosed(block[i], o);
    var p, q := PlaceInLine(block[i], o.begin) + |o.begin|, PlaceInLine(block[i], o.finish);
    LinesAround(pre, kind, block, post, i);
    SliceOfLine(pre + LinesBefore(kind, block, i), PrintLine(block[i]), p, q,
                PrintLines(block[i + 1..]) + ([MarkersOf(kind).finish] + post));
    CutIsTidy(block[i], p, q);
    OneLineIsRead(EscapeBody(Enclosed(block[i].value, o)));
  }

  /** END before BEGIN in the values: the parser finds them in this order. */
  lemma {:induction false} OtherReversed(pre: seq<string>, kind: Kind, block: seq<Assignment>, post: seq<string>)
    requires LeadingBlock(pre, kind, block, post)
    requires var o := MarkersOf(Other(kind));
      var i, j := FirstHolding(block, o.begin), FirstHolding(block, o.finish);
      j <= i < |block| && (i == j ==> !Encloses(block[i].value, o))
    ensures ParseBlock(WithBlock(pre, MarkersOf(kind), InnerOf(kind, block), post), MarkersOf(Other(kind)))
         == Err(FileInvalid)
  {
    hide IndexOf, MarkersOf, InnerOf, PlaceInLine, IsName, Offset, MarkerLike, LinesBefore, PrintLine, Join;
    hide ReadLines, SplitAtBreaks, NoneOf, HoldsNone, ReadLine, WithBlock;
    var o := MarkersOf(Other(kind));
    var i, j := FirstHolding(block, o.begin), FirstHolding(block, o.finish);
    OtherMarkerFound(pre, kind, block, post, o.begin);
    OtherMarkerFound(pre, kind, block, post, o.finish);
    if j < i {
      LaterPlace(pre, kind, block, o.finish, o.begin);
    } else {
      PlacesInOneValue(block[i], o.begin, o.finish);
      DifferentMarkers(block[i].value, Other(kind));
    }
  }

  /** One of the two markers is nowhere. */
  lemma {:induction false} OtherHalf(pre: seq<string>, kind: Kind, block: seq<Assignment>, post: seq<string>)
    requires OnlyBlock(pre, kind, block, post)
    requires var o := MarkersOf(Other(kind));
      (FirstHolding(block, o.begin) == |block|) != (FirstHolding(block, o.finish) == |block|)
    ensures ParseBlock(WithBlock(pre, MarkersOf(kind), InnerOf(kind, block), post), MarkersOf(Other(kind)))
         == Err(FileInvalid)
  {
    hide IndexOf, MarkersOf, InnerOf, PlaceInFile, IsName, MarkerLike, Join;
    hide ReadLines, SplitAtBreaks, NoneOf, HoldsNone, ReadLine, WithBlock;
    var o := MarkersOf(Other(kind));
    OtherMarkerFound(pre, kind, block, post, o.begin);
    OtherMarkerFound(pre, kind, block, post, o.finish);
    OtherMarkerAbsent(pre, kind, block, post, o.begin);
    OtherMarkerAbsent(pre, kind, block, post, o.finish);
  }

  /** BEGIN and END cannot stand at the same place. */
  lemma {:induction false} DifferentMarkers(v: string, kind: Kind)
    requires IndexOf(v, MarkersOf(kind).begin).Some? && IndexOf(v, MarkersOf(kind).finish).Some?
    ensures IndexOf(v, MarkersOf(kind).begin).value != IndexOf(v, MarkersOf(kind).finish).value
  {
    hide IndexOf, MarkersOf, OccursAt;
    var o := MarkersOf(kind);
    ThirdCharacters(kind);
    OccursChar(v, o.begin, IndexOf(v, o.begin).value, 2);
    OccursChar(v, o.finish, IndexOf(v, o.finish).value, 2);
  }

  lemma ThirdCharacters(kind: Kind)
    ensures |MarkersOf(kind).begin| > 2 && |MarkersOf(kind).finish| > 2
    ensures MarkersOf(kind).begin[2] == 'B' && MarkersOf(kind).finish[2] == 'E'
  {
  }

  /**
   * In a file that holds this block and no line of the other one, the parser of the other block finds
   * what the values make it find, and rejects the file exactly when they mislead it.
   */
  lemma {:induction false} OtherBlockIsRead(pre: seq<string>, kind: Kind, block: seq<Assignment>, post: seq<string>)
    requires OnlyBlock(pre, kind, block, post)
    ensures var o := MarkersOf(Other(kind));
      ParseBlock(WithBlock(pre, MarkersOf(kind), InnerOf(kind, block), post), o)
      == if HarmlessToOther(block, o) then Ok(StrayOf(block, o)) else Err(FileInvalid)
  {
    hide IndexOf, MarkersOf, InnerOf, ReadLines, SplitAtBreaks, NoneOf, WithBlock, ReadLine, Encloses, Enclosed;
    hide EscapeBody;
    hide HoldsNone, Offset;
    var o := MarkersOf(Other(kind));
    var i, j := FirstHolding(block, o.begin), FirstHolding(block, o.finish);
    FirstHoldingIsFirst(block, o.begin);
    FirstHoldingIsFirst(block, o.finish);
    if i == |block| && j == |block| {
      OtherMarkerAbsent(pre, kind, block, post, o.begin);
      OtherMarkerAbsent(pre, kind, block, post, o.finish);
    } else if i == |block| || j == |block| {
      OtherHalf(pre, kind, block, post);
    } else if i < j {
      OtherAcross(pre, kind, block, post);
    } else if i == j && Encloses(block[i].value, o) {
      OtherInOne(pre, kind, block, post);
      LineErrors(EscapeBody(Enclosed(block[i].value, o)));
    } else {
      OtherReversed(pre, kind, block, post);
    }
  }

  // ---------- with the other block in the file as well ----------

  /** Where the other block stands first, values of this one cannot mislead its parser. */
  lemma {:induction false} OtherBeforeIsRead(
      pre: seq<string>, kind: Kind, block: seq<Assignment>, post: seq<string>)
    requires BlockOk(kind, block) && NoneOf(pre, MarkersOf(kind)) && post != []
    ensures ParseBlock(WithBlock(pre, MarkersOf(kind), InnerOf(kind, block), post), MarkersOf(kind))
         == Ok(Some(Assigned(map[], block)))
  {
    hide MarkersOf, InnerOf, WithBlock, NoneOf, ParseBlock, Assigned, Contains, IsName;
    forall i | 0 <= i < |block|
      ensures ValueOk(kind, block[i].value)
    {
    }
    OwnBlockIsRead(pre, kind, block, post);
  }

  predicate AllRead(lines: seq<string>) {
    forall i :: 0 <= i < |lines| ==> ReadLine(lines[i]).Ok?
  }

  lemma {:induction false} LinesReadIff(lines: seq<string>, env: Env)
    ensures ReadLines(lines, env).Ok? <==> AllRead(lines)
    decreases |lines|
  {
    hide ReadLine;
    if lines != [] && ReadLine(lines[0]).Ok? {
      LinesReadIff(lines[1..], match ReadLine(lines[0]).value case None => env case Some(a) => env[a.name := a.value]);
      assert forall i :: 1 <= i < |lines| ==> lines[i] == lines[1..][i - 1];
    }
  }

  /** What is read of a line in the middle of a body. */
  function WithoutBreaks(lines: seq<string>): seq<string> {
    seq(|lines|, i requires 0 <= i < |lines| => DropCr(lines[i]))
  }

  lemma {:induction false} BreaksGo(lines: seq<string>, last: string)
    ensures WithoutCrs(lines + [last]) == WithoutBreaks(lines) + [last]
    decreases |lines|
  {
    hide DropCr;
    if lines == [] {
      assert lines + [last] == [last];
    } else {
      assert (lines + [last])[1..] == lines[1..] + [last];
      BreaksGo(lines[1..], last);
      assert WithoutBreaks(lines) == [DropCr(lines[0])] + WithoutBreaks(lines[1..]);
    }
  }

  lemma WithoutBreaksConcat(a: seq<string>, b: seq<string>)
    ensures WithoutBreaks(a + b) == WithoutBreaks(a) + WithoutBreaks(b)
  {
    hide DropCr;
  }

  lemma {:induction false} TidyStays(lines: seq<string>)
    requires AllTidy(lines)
    ensures WithoutBreaks(lines) == lines
  {
    forall i | 0 <= i < |lines|
      ensures DropCr(lines[i]) == lines[i]
    {
      assert IsTidyLine(lines[i]);
    }
  }

  /** A marker line says nothing. */
  lemma {:induction false} MarkerLineIsSkipped(kind: Kind)
    ensures ReadLine(MarkersOf(kind).begin) == Ok(None) && IsTidyLine(MarkersOf(kind).begin)
    ensures ReadLine(MarkersOf(kind).finish) == Ok(None) && IsTidyLine(MarkersOf(kind).finish)
  {
    hide MarkersOf, MarkerLike;
    MarkersAreApart(kind, kind);
    LastIsP(kind);
    HashLineIsSkipped(MarkersOf(kind).begin);
    HashLineIsSkipped(MarkersOf(kind).finish);
  }

  lemma LastIsP(kind: Kind)
    ensures var m := MarkersOf(kind);
      |m.begin| > 0 && m.begin[|m.begin| - 1] == 'P' && |m.finish| > 0 && m.finish[|m.finish| - 1] == 'P'
  {
  }

  lemma HashLineIsSkipped(m: string)
    requires MarkerLike(m) && NoNewline(m) && m[|m| - 1] == 'P'
    ensures ReadLine(m) == Ok(None) && IsTidyLine(m)
  {
    hide IndexOf, TrimStart, TrimEnd;
    assert Trim(m) == m;
  }

  /** A file with this block, some lines, and then the other block. */
  function LaterLines(kind: Kind, tail: seq<string>, later: seq<Assignment>, post: seq<string>): seq<string> {
    tail + (BlockLines(MarkersOf(Other(kind)), InnerOf(Other(kind), later)) + post)
  }

  function BothBlocks(
      pre: seq<string>, kind: Kind, block: seq<Assignment>, tail: seq<string>, later: seq<Assignment>,
      post: seq<string>)
      : string
  {
    WithBlock(pre, MarkersOf(kind), InnerOf(kind, block), LaterLines(kind, tail, later, post))
  }

  predicate LaterOk(kind: Kind, pre: seq<string>, block: seq<Assignment>, tail: seq<string>, later: seq<Assignment>) {
    && Named(block) && BlockOk(Other(kind), later) && AllLines(tail)
    && NoneOf(pre, MarkersOf(Other(kind))) && NoneOf(tail, MarkersOf(Other(kind)))
  }

  /** Everything before the other block. */
  function Front(pre: seq<string>, kind: Kind, block: seq<Assignment>, tail: seq<string>): seq<string> {
    pre + (BlockLines(MarkersOf(kind), InnerOf(kind, block)) + tail)
  }

  lemma BothLines(
      pre: seq<string>, kind: Kind, block: seq<Assignment>, tail: seq<string>, later: seq<Assignment>,
      post: seq<string>)
    ensures pre + (BlockLines(MarkersOf(kind), InnerOf(kind, block)) + LaterLines(kind, tail, later, post))
         == Front(pre, kind, block, tail) + (BlockLines(MarkersOf(Other(kind)), InnerOf(Other(kind), later)) + post)
  {
    hide MarkersOf, InnerOf, BlockLines;
  }

  /** A marker of the other block that no value holds is found where that block stands. */
  lemma {:induction false} LaterMarkers(
      pre: seq<string>, kind: Kind, block: seq<Assignment>, tail: seq<string>, later: seq<Assignment>,
      post: seq<string>)
    requires LaterOk(kind, pre, block, tail, later)
    ensures var o := MarkersOf(Other(kind));
      var c := BothBlocks(pre, kind, block, tail, later, post);
      && (HoldsNone(block, o.begin) ==> IndexOf(c, o.begin) == Some(Offset(Front(pre, kind, block, tail))))
      && (HoldsNone(block, o.finish) ==>
            IndexOf(c, o.finish)
            == Some(Offset(Front(pre, kind, block, tail) + ([o.begin] + InnerOf(Other(kind), later)))))
  {
    hide Contains, IndexOf, MarkersOf, InnerOf, MarkerLike, IsName, Join, Offset, BlockOk, LaterLines, HoldsNone;
    var o, m := MarkersOf(Other(kind)), MarkersOf(kind);
    var front, inner := Front(pre, kind, block, tail), InnerOf(Other(kind), later);
    MarkersAreApart(kind, Other(kind));
    MarkersAreApart(Other(kind), Other(kind));
    BothLines(pre, kind, block, tail, later, post);
    InnerHasNone(Other(kind), later);
    assert front + (BlockLines(o, inner) + post) == front + ([o.begin] + (inner + ([o.finish] + post)));
    assert front + (BlockLines(o, inner) + post) == (front + ([o.begin] + inner)) + ([o.finish] + post);
    if HoldsNone(block, o.begin) {
      FrontHasNone(pre, kind, block, tail, o.begin);
      MarkerStart(o.begin);
      FoundInLine(front, o.begin, inner + ([o.finish] + post));
    }
    if HoldsNone(block, o.finish) {
      FrontHasNone(pre, kind, block, tail, o.finish);
      MarkerStart(o.finish);
      NoneContainsConcat([o.begin], inner, o.finish);
      NoneContainsConcat(front, [o.begin] + inner, o.finish);
      FoundInLine(front + ([o.begin] + inner), o.finish, post);
    }
  }

  lemma {:induction false} FrontHasNone(
      pre: seq<string>, kind: Kind, block: seq<Assignment>, tail: seq<string>, x: string)
    requires Named(block) && MarkerLike(x) && HoldsNone(block, x) && NoneContains(pre, x) && NoneContains(tail, x)
    requires !Contains(MarkersOf(kind).begin, x) && !Contains(MarkersOf(kind).finish, x)
    ensures NoneContains(Front(pre, kind, block, tail), x)
  {
    hide Contains, MarkersOf, InnerOf, MarkerLike, IsName;
    var m := MarkersOf(kind);
    var inner := InnerOf(kind, block);
    InnerHolds(kind, block, x);
    NoneContainsConcat([m.begin], inner, x);
    NoneContainsConcat([m.begin] + inner, [m.finish], x);
    NoneContainsConcat(BlockLines(m, inner), tail, x);
    NoneContainsConcat(pre, BlockLines(m, inner) + tail, x);
  }

  /** A place in a value lies before the other block. */
  lemma {:induction false} ValueIsInFront(
      pre: seq<string>, kind: Kind, block: seq<Assignment>, tail: seq<string>, x: string)
    requires Named(block) && MarkerLike(x) && FirstHolding(block, x) < |block|
    ensures PlaceInFile(pre, kind, block, x) + |x| < Offset(Front(pre, kind, block, tail))
  {
    hide IndexOf, MarkersOf, PrintLine, PlaceInLine, IsName, Offset, MarkerLike, LinesBefore, PrintLines, InnerOf,
        BlockLines;
    var i := FirstHolding(block, x);
    LinesAround(pre, kind, block, tail, i);
    OffsetsGrow(pre + LinesBefore(kind, block, i), PrintLine(block[i]),
                PrintLines(block[i + 1..]) + ([MarkersOf(kind).finish] + tail));
    LineHolds(block[i], x);
  }

  /** What a printed value shows behind a BEGIN marker in it: the rest of its text and the closing quote. */
  function RestOf(v: string, o: Markers): string
    requires Contains(v, o.begin)
  {
    EscapeBody(v[IndexOf(v, o.begin).value + |o.begin|..]) + "\""
  }

  lemma {:induction false} RestOfLine(a: Assignment, o: Markers)
    requires IsName(a.name) && MarkerLike(o.begin) && Contains(a.value, o.begin)
    ensures PlaceInLine(a, o.begin) + |o.begin| <= |PrintLine(a)|
    ensures PrintLine(a)[PlaceInLine(a, o.begin) + |o.begin|..] == RestOf(a.value, o)
  {
    hide IndexOf, EscapeBody, IsName, MarkerLike, PrintLine;
    var v := a.value;
    var x := IndexOf(v, o.begin).value;
    MarkerStart(o.begin);
    LineWithMarker(a, o.begin);
    MarkerStandsThere(v, o.begin, x);
    var head, rest := v[..x], v[x + |o.begin|..];
    assert v == head + (o.begin + rest);
    EscapedMarker(o.begin);
    EscapeConcat(o.begin, rest);
    EscapeConcat(head, o.begin + rest);
    BehindIt(a.name + "=\"", EscapeBody(head), o.begin, EscapeBody(rest), "\"");
  }

  lemma BehindIt(front: string, head: string, m: string, rest: string, end: string)
    ensures var line := front + ((head + (m + rest)) + end);
      line[|front| + |head| + |m|..] == rest + end
  {
    var line := front + ((head + (m + rest)) + end);
    assert line == (front + head + m) + (rest + end);
  }

  /** Values that do not mislead the parser of the other block, standing `tail` lines before it. */
  predicate HarmlessBefore(block: seq<Assignment>, o: Markers, tail: seq<string>) {
    || HarmlessToOther(block, o)
    || (var i := FirstHolding(block, o.begin);
        i < |block| && HoldsNone(block, o.finish)
        && ReadLine(RestOf(block[i].value, o)).Ok? && AllRead(WithoutBreaks(tail)))
  }

  /** What is read from the rest of a value, the assignments behind it, some lines, and then the other block. */
  function OpenedReads(
      first: string, rest: seq<Assignment>, tail: seq<string>, later: seq<Assignment>): Result<Env, EnvError>
  {
    match ReadLines([first], map[])
    case Err(e) => Err(e)
    case Ok(env) =>
      match ReadLines(tail, Assigned(env, rest))
      case Err(e) => Err(e)
      case Ok(env) => Ok(Assigned(env, later))
  }

  /**
   * What such values make the parser of the other block find: that block, or, when they hold both its markers,
   * at most one assignment instead of it, or, when they hold its BEGIN only, whatever stands between and that block.
   */
  function FoundBefore(block: seq<Assignment>, o: Markers, tail: seq<string>, later: seq<Assignment>): Env
    requires HarmlessBefore(block, o, tail)
  {
    if HoldsNone(block, o.begin) && HoldsNone(block, o.finish) then Assigned(map[], later)
    else if HarmlessToOther(block, o) then
      match StrayOf(block, o) case None => map[] case Some(env) => env
    else
      var i := FirstHolding(block, o.begin);
      match OpenedReads(RestOf(block[i].value, o), block[i + 1..], WithoutBreaks(tail), later)
      case Err(_) => map[]
      case Ok(env) => env
  }

  /** The lines from a BEGIN marker in a value to the END of the other block. */
  function BodyLines(
      kind: Kind, first: string, rest: seq<Assignment>, tail: seq<string>, later: seq<Assignment>): seq<string>
  {
    [first] + (PrintLines(rest) + ([MarkersOf(kind).finish] + (tail
      + ([MarkersOf(Other(kind)).begin] + InnerOf(Other(kind), later)))))
  }

  lemma {:induction false} BodyToLater(
      pre: seq<string>, kind: Kind, block: seq<Assignment>, tail: seq<string>, later: seq<Assignment>,
      post: seq<string>,
      i: nat, p: nat)
    requires i < |block| && p <= |PrintLine(block[i])|
    ensures var c := BothBlocks(pre, kind, block, tail, later, post);
      var o := MarkersOf(Other(kind));
      var x := Offset(pre + LinesBefore(kind, block, i)) + p;
      var y := Offset(Front(pre, kind, block, tail) + ([o.begin] + InnerOf(Other(kind), later)));
      && x <= y <= |c|
      && c[x..y] == Join(BodyLines(kind, PrintLine(block[i])[p..], block[i + 1..], tail, later) + [""], "\n")
  {
    hide Join, MarkersOf, InnerOf, PrintLine, PrintLines, Offset, LinesBefore, BlockLines;
    var o, m := MarkersOf(Other(kind)), MarkersOf(kind);
    var before := pre + LinesBefore(kind, block, i);
    var inner := InnerOf(Other(kind), later);
    var mid := PrintLines(block[i + 1..]) + ([m.finish] + (tail + ([o.begin] + inner)));
    LinesAround(pre, kind, block, tail, i);
    LinesAround(pre, kind, block, LaterLines(kind, tail, later, post), i);
    BlockInParts(o, inner, post);
    SliceOfLines(before, PrintLine(block[i]), p, mid, o.finish, 0, post);
    assert o.finish[..0] == "";
    assert Front(pre, kind, block, tail) + ([o.begin] + inner) == before + ([PrintLine(block[i])] + mid);
    assert before + ([PrintLine(block[i])] + (mid + ([o.finish] + post)))
        == before + ([PrintLine(block[i])]
                     + (PrintLines(block[i + 1..]) +
                         ([m.finish] + (tail + (([o.begin] + inner) + ([o.finish] + post))))));
    assert [PrintLine(block[i])[p..]] + (mid + [""])
        == BodyLines(kind, PrintLine(block[i])[p..], block[i + 1..], tail, later) + [""];
  }

  lemma BlockInParts(o: Markers, inner: seq<string>, post: seq<string>)
    ensures BlockLines(o, inner) + post == ([o.begin] + inner) + ([o.finish] + post)
  {
  }

  lemma {:induction false} ReadThrough(a: seq<string>, b: seq<string>, env: Env)
    ensures ReadLines(a + b, env) ==
      match ReadLines(a, env)
      case Err(e) => Err(e)
      case Ok(next) => ReadLines(b, next)
    decreases |a|
  {
    hide ReadLine;
    if a == [] {
      assert a + b == b;
    } else {
      assert (a + b)[1..] == a[1..] + b;
      var line := ReadLine(a[0]);
      if line.Ok? {
        ReadThrough(a[1..], b, match line.value case None => env case Some(x) => env[x.name := x.value]);
      }
    }
  }

  lemma OpenedReadsIff(first: string, rest: seq<Assignment>, tail: seq<string>, later: seq<Assignment>)
    ensures var r := OpenedReads(first, rest, tail, later);
      && (r.Ok? <==> ReadLine(first).Ok? && AllRead(tail))
      && (r.Err? ==> r == Err(FileInvalid))
  {
    hide ReadLine, ReadLines, Assigned;
    LinesReadIff([first], map[]);
    LinesErrors([first], map[]);
    assert [first][0] == first;
    if ReadLine(first).Ok? {
      LinesReadIff(tail, Assigned(ReadLines([first], map[]).value, rest));
      LinesErrors(tail, Assigned(ReadLines([first], map[]).value, rest));
    }
  }

  /** The other block's lines are read over what was read before them. */
  lemma {:induction false} LaterIsReadOver(kind: Kind, later: seq<Assignment>, env: Env)
    requires Named(later)
    ensures ReadLines([MarkersOf(kind).begin] + InnerOf(kind, later) + [""], env) == Ok(Assigned(env, later))
  {
    hide MarkersOf, CommentsOf, PrintLines, ReadLine, Assigned, IsName;
    var b, c := [MarkersOf(kind).begin], CommentsOf(kind);
    MarkerLineIsSkipped(kind);
    CommentsAreTidy(kind);
    BlankLineIsSkipped();
    assert b + InnerOf(kind, later) + [""] == b + (c + (PrintLines(later) + [""]));
    CommentsAreSkipped(b, c + (PrintLines(later) + [""]), env);
    CommentsAreSkipped(c, PrintLines(later) + [""], env);
    LinesAreReadBack(later, [""], env);
    CommentsAreSkipped([""], [], Assigned(env, later));
    assert [""] + [] == [""];
  }

  /** Such a body says what the rest of the value, the assignments, the lines and the other block say. */
  lemma {:induction false} BodyIsRead(
      kind: Kind, first: string, rest: seq<Assignment>, tail: seq<string>, later: seq<Assignment>)
    requires IsTidyLine(first) && Named(rest) && AllLines(tail) && Named(later)
    ensures ReadLines(SplitAtBreaks(Join(BodyLines(kind, first, rest, tail, later) + [""], "\n")), map[])
         == OpenedReads(first, rest, WithoutBreaks(tail), later)
  {
    hide Join, MarkersOf, CommentsOf, PrintLines, ReadLine, DropCr, IsName, NoNewline, WithoutBreaks, ReadLines;
    hide InnerOf, Assigned;
    var lines := BodyLines(kind, first, rest, tail, later);
    BodyIsLines(kind, first, rest, tail, later);
    LinesOfJoin(lines + [""]);
    BreaksGo(lines, "");
    BodyWithoutBreaks(kind, first, rest, tail, later);
    var m, bare := MarkersOf(kind), WithoutBreaks(tail);
    var end := [MarkersOf(Other(kind)).begin] + InnerOf(Other(kind), later) + [""];
    assert BodyLines(kind, first, rest, bare, later) + [""]
        == [first] + (PrintLines(rest) + ([m.finish] + (bare + end)));
    ReadThrough([first], PrintLines(rest) + ([m.finish] + (bare + end)), map[]);
    if ReadLines([first], map[]).Ok? {
      var env := ReadLines([first], map[]).value;
      LinesAreReadBack(rest, [m.finish] + (bare + end), env);
      MarkerLineIsSkipped(kind);
      CommentsAreSkipped([m.finish], bare + end, Assigned(env, rest));
      ReadThrough(bare, end, Assigned(env, rest));
      if ReadLines(bare, Assigned(env, rest)).Ok? {
        LaterIsReadOver(Other(kind), later, ReadLines(bare, Assigned(env, rest)).value);
      }
    }
  }

  lemma TidyAreLines(lines: seq<string>)
    requires AllTidy(lines)
    ensures AllLines(lines)
  {
    forall i | 0 <= i < |lines|
      ensures NoNewline(lines[i])
    {
      assert IsTidyLine(lines[i]);
    }
  }

  lemma {:induction false} BodyIsLines(
      kind: Kind, first: string, rest: seq<Assignment>, tail: seq<string>, later: seq<Assignment>)
    requires IsTidyLine(first) && Named(rest) && AllLines(tail) && Named(later)
    ensures AllLines(BodyLines(kind, first, rest, tail, later) + [""])
  {
    hide MarkersOf, CommentsOf, PrintLine, PrintLines, DropCr, IsName, NoNewline;
    CommentsAreTidy(Other(kind));
    InnerLinesAreTidy(CommentsOf(Other(kind)), later);
    PrintedAreTidy(rest);
    TidyAreLines(PrintLines(rest));
    TidyAreLines(InnerOf(Other(kind), later));
    MarkerLineIsSkipped(kind);
    MarkerLineIsSkipped(Other(kind));
    EmptyIsTidy();
  }

  lemma {:induction false} BodyWithoutBreaks(
      kind: Kind, first: string, rest: seq<Assignment>, tail: seq<string>, later: seq<Assignment>)
    requires IsTidyLine(first) && Named(rest) && Named(later)
    ensures WithoutBreaks(BodyLines(kind, first, rest, tail, later)) ==
        BodyLines(kind, first, rest, WithoutBreaks(tail), later)
  {
    hide MarkersOf, CommentsOf, PrintLine, PrintLines, DropCr, IsName, NoNewline, WithoutBreaks, InnerOf;
    var o, m := MarkersOf(Other(kind)), MarkersOf(kind);
    CommentsAreTidy(Other(kind));
    InnerIsTidy(Other(kind), later);
    PrintedAreTidy(rest);
    MarkerLineIsSkipped(kind);
    MarkerLineIsSkipped(Other(kind));
    TidyStays([first]);
    TidyStays(PrintLines(rest));
    TidyStays([m.finish]);
    TidyStays([o.begin] + InnerOf(Other(kind), later));
    WithoutBreaksConcat(tail, [o.begin] + InnerOf(Other(kind), later));
    WithoutBreaksConcat([m.finish], tail + ([o.begin] + InnerOf(Other(kind), later)));
    WithoutBreaksConcat(PrintLines(rest), [m.finish] + (tail + ([o.begin] + InnerOf(Other(kind), later))));
    WithoutBreaksConcat([first], PrintLines(rest) + ([m.finish] + (tail + ([o.begin] + InnerOf(Other(kind), later)))));
  }

  lemma {:induction false} InnerIsTidy(kind: Kind, block: seq<Assignment>)
    requires Named(block)
    ensures AllTidy(InnerOf(kind, block))
  {
    hide CommentsOf, IsTidyLine, IsName;
    CommentsAreTidy(kind);
    InnerLinesAreTidy(CommentsOf(kind), block);
  }

  /** BEGIN in a value, END in the other block only. */
  lemma {:induction false} OtherOpened(
      pre: seq<string>, kind: Kind, block: seq<Assignment>, tail: seq<string>, later: seq<Assignment>,
      post: seq<string>)
    requires LaterOk(kind, pre, block, tail, later)
    requires var o := MarkersOf(Other(kind));
      FirstHolding(block, o.begin) < |block| && HoldsNone(block, o.finish)
    ensures var o := MarkersOf(Other(kind));
      var i := FirstHolding(block, o.begin);
      ParseBlock(BothBlocks(pre, kind, block, tail, later, post), o) ==
      match OpenedReads(RestOf(block[i].value, o), block[i + 1..], WithoutBreaks(tail), later)
      case Err(e) => Err(e)
      case Ok(env) => Ok(Some(env))
  {
    hide IndexOf, MarkersOf, InnerOf, PlaceInLine, IsName, Offset, MarkerLike, LinesBefore, PrintLines, PrintLine, Join;
    hide ReadLines, SplitAtBreaks, NoneOf, HoldsNone, ReadLine, IsTidyLine, RestOf, WithoutBreaks, Front, BodyLines;
    hide OpenedReads;
    hide LaterLines, WithBlock, AllLines, ValueOk;
    var o := MarkersOf(Other(kind));
    var i := FirstHolding(block, o.begin);
    LaterIsThere(kind, tail, later, post);
    OtherMarkerFound(pre, kind, block, LaterLines(kind, tail, later, post), o.begin);
    LaterMarkers(pre, kind, block, tail, later, post);
    RestOfLine(block[i], o);
    var p := PlaceInLine(block[i], o.begin) + |o.begin|;
    var first := PrintLine(block[i])[p..];
    BodyToLater(pre, kind, block, tail, later, post, i, p);
    CutIsTidy(block[i], p, |PrintLine(block[i])|);
    assert PrintLine(block[i])[p..|PrintLine(block[i])|] == first;
    BodyIsRead(kind, first, block[i + 1..], tail, later);
  }

  lemma LaterIsThere(kind: Kind, tail: seq<string>, later: seq<Assignment>, post: seq<string>)
    ensures LaterLines(kind, tail, later, post) != []
  {
    hide MarkersOf, InnerOf;
  }

  /** END in a value and no BEGIN before it: the parser finds them in this order. */
  lemma {:induction false} OtherClosed(
      pre: seq<string>, kind: Kind, block: seq<Assignment>, tail: seq<string>, later: seq<Assignment>,
      post: seq<string>)
    requires LaterOk(kind, pre, block, tail, later)
    requires var o := MarkersOf(Other(kind));
      HoldsNone(block, o.begin) && FirstHolding(block, o.finish) < |block|
    ensures ParseBlock(BothBlocks(pre, kind, block, tail, later, post), MarkersOf(Other(kind))) == Err(FileInvalid)
  {
    hide IndexOf, MarkersOf, InnerOf, PlaceInFile, IsName, Offset, MarkerLike, Join, Front;
    hide ReadLines, SplitAtBreaks, NoneOf, HoldsNone, ReadLine, LaterLines, WithBlock, AllLines, ValueOk;
    var o := MarkersOf(Other(kind));
    LaterIsThere(kind, tail, later, post);
    OtherMarkerFound(pre, kind, block, LaterLines(kind, tail, later, post), o.finish);
    LaterMarkers(pre, kind, block, tail, later, post);
    ValueIsInFront(pre, kind, block, tail, o.finish);
  }

  /**
   * With the other block behind this one its parser rejects exactly the values that mislead it there, and finds
   * with all the others what they let it find.
   */
  lemma {:induction false} OtherLaterIsRead(
      pre: seq<string>, kind: Kind, block: seq<Assignment>, tail: seq<string>, later: seq<Assignment>,
      post: seq<string>)
    requires LaterOk(kind, pre, block, tail, later) && post != []
    ensures var o := MarkersOf(Other(kind));
      ParseBlock(BothBlocks(pre, kind, block, tail, later, post), o)
      == if HarmlessBefore(block, o, tail) then Ok(Some(FoundBefore(block, o, tail, later))) else Err(FileInvalid)
  {
    hide IndexOf, MarkersOf, InnerOf, ReadLines, SplitAtBreaks, NoneOf, WithBlock, ReadLine, Encloses, Enclosed,
        EscapeBody;
    hide HoldsNone, Offset, Front, LaterLines, RestOf, AllRead, WithoutBreaks, ParseBlock, AllLines, IsName, ValueOk;
    hide OpenedReads, Assigned;
    var o := MarkersOf(Other(kind));
    var all := LaterLines(kind, tail, later, post);
    var i, j := FirstHolding(block, o.begin), FirstHolding(block, o.finish);
    FirstHoldingIsFirst(block, o.begin);
    FirstHoldingIsFirst(block, o.finish);
    LaterIsThere(kind, tail, later, post);
    if i == |block| && j == |block| {
      LaterAlone(pre, kind, block, tail, later, post);
    } else if i == |block| {
      OtherClosed(pre, kind, block, tail, later, post);
    } else if j == |block| {
      OtherOpened(pre, kind, block, tail, later, post);
      OpenedReadsIff(RestOf(block[i].value, o), block[i + 1..], WithoutBreaks(tail), later);
    } else if i < j {
      OtherAcross(pre, kind, block, all);
    } else if i == j && Encloses(block[i].value, o) {
      OtherInOne(pre, kind, block, all);
      LineErrors(EscapeBody(Enclosed(block[i].value, o)));
    } else {
      OtherReversed(pre, kind, block, all);
    }
  }

  lemma {:induction false} LaterAlone(
      pre: seq<string>, kind: Kind, block: seq<Assignment>, tail: seq<string>, later: seq<Assignment>,
      post: seq<string>)
    requires LaterOk(kind, pre, block, tail, later) && post != []
    requires HoldsNone(block, MarkersOf(Other(kind)).begin) && HoldsNone(block, MarkersOf(Other(kind)).finish)
    ensures ParseBlock(BothBlocks(pre, kind, block, tail, later, post), MarkersOf(Other(kind)))
         == Ok(Some(Assigned(map[], later)))
  {
    hide Contains, MarkersOf, InnerOf, MarkerLike, IsName, Join, LaterLines, HoldsNone, ParseBlock, Front, BlockOk,
        Assigned;
    var o := MarkersOf(Other(kind));
    MarkersAreApart(kind, Other(kind));
    MarkersAreApart(Other(kind), Other(kind));
    BothLines(pre, kind, block, tail, later, post);
    FrontHasNone(pre, kind, block, tail, o.begin);
    FrontHasNone(pre, kind, block, tail, o.finish);
    OtherBeforeIsRead(Front(pre, kind, block, tail), Other(kind), later, post);
  }
}
