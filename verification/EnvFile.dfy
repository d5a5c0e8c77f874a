/** The local env file as text: the two managed blocks that are merged into it and removed from it. */
module EnvFile {
  import opened Text

  datatype EnvError = FileInvalid | ValueInvalid

  /** The marker lines of one managed block. */
  datatype Markers = Markers(begin: string, finish: string)

  // ---------- the three operations, on text ----------

  /** replace(/^\r?\n/, "") */
  function WithoutLeadingBreak(s: string): string {
    if s != "" && s[0] == '\n' then s[1..]
    else if |s| >= 2 && s[0] == '\r' && s[1] == '\n' then s[2..]
    else s
  }

  /** replace(/\r?\n$/, "") */
  function WithoutTrailingBreak(s: string): string {
    if s == "" || s[|s| - 1] != '\n' then s
    else if |s| >= 2 && s[|s| - 2] == '\r' then s[..|s| - 2]
    else s[..|s| - 1]
  }

  function Merge(existing: Option<string>, block: string, m: Markers): Result<string, EnvError> {
    if existing.None? || IsBlank(existing.value) then Ok(block)
    else MergeAt(existing.value, IndexOf(existing.value, m.begin), IndexOf(existing.value, m.finish), |m.finish|, block)
  }

  function MergeAt(
      content: string, begin: Option<nat>, end: Option<nat>, width: nat, block: string): Result<string, EnvError>
    requires content != "" && (begin.Some? ==> begin.value <= |content|)
    requires end.Some? ==> end.value + width <= |content|
  {
    if begin.None? && end.None? then
      Ok(content + (if content[|content| - 1] == '\n' then "\n" else "\n\n") + block)
    else if begin.None? || end.None? || end.value < begin.value then Err(FileInvalid)
    else
      var before := content[..begin.value];
      var after := WithoutLeadingBreak(content[end.value + width..]);
      var separator := if |before| > 0 && before[|before| - 1] != '\n' then "\n" else "";
      Ok(before + separator + block + after)
  }

  function Remove(existing: Option<string>, m: Markers): Result<Option<string>, EnvError> {
    if existing.None? || IsBlank(existing.value) then Ok(existing)
    else RemoveAt(existing.value, IndexOf(existing.value, m.begin), IndexOf(existing.value, m.finish), |m.finish|)
  }

  function RemoveAt(content: string, begin: Option<nat>, end: Option<nat>, width: nat): Result<Option<string>, EnvError>
    requires begin.Some? ==> begin.value <= |content|
    requires end.Some? ==> end.value + width <= |content|
  {
    if begin.None? && end.None? then Ok(Some(content))
    else if begin.None? || end.None? || end.value < begin.value then Err(FileInvalid)
    else
      Ok(Some(Rejoined(WithoutTrailingBreak(content[..begin.value]),
                       WithoutLeadingBreak(content[end.value + width..]))))
  }

  /** What is left on both sides of a removed block, with one empty line between. */
  function Rejoined(before: string, after: string): string {
    if before == "" then after else if after == "" then before + "\n" else before + "\n\n" + after
  }

  /** The text between a block's markers, if the block is there. */
  function BlockBody(content: string, m: Markers): Result<Option<string>, EnvError> {
    BodyAt(content, IndexOf(content, m.begin), IndexOf(content, m.finish), |m.begin|)
  }

  function BodyAt(content: string, begin: Option<nat>, end: Option<nat>, width: nat): Result<Option<string>, EnvError>
    requires begin.Some? ==> begin.value + width <= |content|
    requires end.Some? ==> end.value <= |content|
  {
    if begin.None? && end.None? then Ok(None)
    else if begin.None? || end.None? || end.value < begin.value then Err(FileInvalid)
    else Ok(Some(if end.value < begin.value + width then "" else content[begin.value + width..end.value]))
  }

  // ---------- markers inside lines ----------

  predicate MarkerChar(c: char) {
    c == ' ' || c == '-' || 'A' <= c <= 'Z'
  }

  /** A hash sign, then capitals, blanks and hyphens; the third character tells BEGIN from END. */
  predicate MarkerLike(m: string) {
    && |m| > 20
    && m[0] == '#'
    && (m[2] == 'B' || m[2] == 'E')
    && forall i :: 1 <= i < |m| ==> MarkerChar(m[i])
  }

  /** A line with no hash behind its first character can only hold a marker at its start. */
  lemma OnlyAtTheStart(line: string, m: string)
    requires MarkerLike(m) && forall i :: 1 <= i < |line| ==> line[i] != '#'
    requires !OccursAt(line, m, 0)
    ensures !Contains(line, m)
  {
    forall p: nat
      ensures !OccursAt(line, m, p)
    {
      if p > 0 {
        Differs(line, m, p, 0);
      }
    }
    ContainsIff(line, m);
  }

  // ---------- searching a text by its lines ----------

  predicate AllLines(lines: seq<string>) {
    forall i :: 0 <= i < |lines| ==> NoNewline(lines[i])
  }

  predicate NoneContains(lines: seq<string>, m: string) {
    forall i :: 0 <= i < |lines| ==> !Contains(lines[i], m)
  }

  /** A marker does not stretch over a line break. */
  lemma NotAcross(a: string, b: string, m: string, p: nat)
    requires NoNewline(m) && m != "" && OccursAt(a + "\n" + b, m, p)
    ensures p + |m| <= |a| || p > |a|
  {
    if p <= |a| < p + |m| {
      OccursChar(a + "\n" + b, m, p, |a| - p);
    }
  }

  lemma {:induction false} NotInJoin(lines: seq<string>, m: string)
    requires NoNewline(m) && m != "" && NoneContains(lines, m)
    ensures !Contains(Join(lines, "\n"), m)
    decreases |lines|
  {
    var s := Join(lines, "\n");
    if lines == [] {
      Differs("", m, 0, 0);
      forall p: nat
        ensures !OccursAt(s, m, p)
      {
        Differs(s, m, p, 0);
      }
      ContainsIff(s, m);
    } else if |lines| > 1 {
      var rest := Join(lines[1..], "\n");
      NotInJoin(lines[1..], m);
      NotInEither(lines[0], rest, m);
    }
  }

  lemma NotInEither(a: string, b: string, m: string)
    requires NoNewline(m) && m != "" && !Contains(a, m) && !Contains(b, m)
    ensures !Contains(a + "\n" + b, m)
  {
    var s := a + "\n" + b;
    ContainsIff(a, m);
    ContainsIff(b, m);
    ContainsIff(s, m);
    forall p: nat
      ensures !OccursAt(s, m, p)
    {
      if OccursAt(s, m, p) {
        OccursBesideBreak(a, b, m, p);
      }
    }
  }

  lemma OccursBesideBreak(a: string, b: string, m: string, p: nat)
    requires NoNewline(m) && m != "" && OccursAt(a + "\n" + b, m, p)
    ensures OccursAt(a, m, p) || (p > |a| && OccursAt(b, m, p - |a| - 1))
  {
    NotAcross(a, b, m, p);
    if p + |m| <= |a| {
      assert a + "\n" + b == a + ("\n" + b);
      OccursLeft(a, "\n" + b, m, p);
    } else {
      OccursRight(a + "\n", b, m, p);
    }
  }

  lemma OccursLeft(a: string, b: string, m: string, p: nat)
    requires p + |m| <= |a|
    ensures OccursAt(a + b, m, p) <==> OccursAt(a, m, p)
  {
  }

  lemma OccursRight(a: string, b: string, m: string, p: nat)
    requires |a| <= p
    ensures OccursAt(a + b, m, p) <==> OccursAt(b, m, p - |a|)
  {
    if OccursAt(a + b, m, p) {
      forall k | 0 <= k < |m|
        ensures b[p - |a| + k] == m[k]
      {
        assert (a + b)[p + k] == b[p - |a| + k];
      }
    }
  }

  /** Where the text of the lines after `pre` starts. */
  function Offset(pre: seq<string>): nat {
    if pre == [] then 0 else |Join(pre, "\n")| + 1
  }

  /** The text before the line that follows `pre`. */
  function Before(pre: seq<string>): string {
    if pre == [] then "" else Join(pre, "\n") + "\n"
  }

  lemma JoinSplit(pre: seq<string>, post: seq<string>)
    requires post != []
    ensures Join(pre + post, "\n") == Before(pre) + Join(post, "\n")
    ensures |Before(pre)| == Offset(pre)
  {
    if pre == [] {
      assert pre + post == post;
    } else {
      JoinConcat(pre, post, "\n");
    }
  }

  lemma FirstBehind(head: string, rest: string, m: string)
    requires NoNewline(m) && m != "" && !Contains(head, m) && m <= rest
    ensures IndexOf(head + "\n" + rest, m) == Some(|head| + 1)
  {
    var s := head + "\n" + rest;
    OccursRight(head + "\n", rest, m, |head| + 1);
    ContainsIff(head, m);
    forall p: nat | p < |head| + 1
      ensures !OccursAt(s, m, p)
    {
      if OccursAt(s, m, p) {
        OccursBesideBreak(head, rest, m, p);
      }
    }
    IndexIs(s, m, |head| + 1);
  }

  /** A marker line that no earlier line contains is found at its own place. */
  lemma FoundInLine(pre: seq<string>, m: string, post: seq<string>)
    requires NoNewline(m) && m != "" && NoneContains(pre, m)
    ensures IndexOf(Join(pre + ([m] + post), "\n"), m) == Some(Offset(pre))
  {
    var tail := Join([m] + post, "\n");
    JoinSplit(pre, [m] + post);
    StartsWithFirst(m, post);
    if pre == [] {
      assert "" + tail == tail;
      IndexIs(tail, m, 0);
    } else {
      NotInJoin(pre, m);
      FirstBehind(Join(pre, "\n"), tail, m);
    }
  }

  lemma StartsWithFirst(line: string, post: seq<string>)
    ensures line <= Join([line] + post, "\n")
  {
    assert ([line] + post)[1..] == post;
  }

  // ---------- the operations, on lines ----------

  /** What the proofs need of a pair of markers. */
  predicate MarkersOk(m: Markers) {
    && MarkerLike(m.begin) && MarkerLike(m.finish)
    && NoNewline(m.begin) && NoNewline(m.finish)
    && !Contains(m.begin, m.finish)
  }

  function BlockLines(m: Markers, inner: seq<string>): seq<string> {
    [m.begin] + inner + [m.finish]
  }

  function BlockText(m: Markers, inner: seq<string>): string {
    Join(BlockLines(m, inner), "\n") + "\n"
  }

  /** A text with one block between the lines `pre` and `post`. */
  function WithBlock(pre: seq<string>, m: Markers, inner: seq<string>, post: seq<string>): string {
    Join(pre + (BlockLines(m, inner) + post), "\n")
  }

  /** No line around or inside the block holds a marker of it. */
  predicate BlockStandsAlone(pre: seq<string>, m: Markers, inner: seq<string>) {
    && MarkersOk(m)
    && NoneContains(pre, m.begin) && NoneContains(pre, m.finish)
    && NoneContains(inner, m.finish)
  }

  lemma NoneContainsConcat(a: seq<string>, b: seq<string>, m: string)
    ensures NoneContains(a + b, m) <==> NoneContains(a, m) && NoneContains(b, m)
  {
    if NoneContains(a + b, m) {
      forall i | 0 <= i < |a|
        ensures !Contains(a[i], m)
      {
        assert (a + b)[i] == a[i];
      }
      forall i | 0 <= i < |b|
        ensures !Contains(b[i], m)
      {
        assert (a + b)[|a| + i] == b[i];
      }
    }
  }

  /** The text between the markers of a block. */
  function Between(inner: seq<string>): string {
    Join([""] + inner + [""], "\n")
  }

  /** A block's text has five parts: before, BEGIN, between, END, and the rest after a line break. */
  lemma PartsOfBlock(pre: seq<string>, m: Markers, inner: seq<string>, post: seq<string>)
    requires post != []
    ensures WithBlock(pre, m, inner, post)
         == Before(pre) + ((m.begin + Between(inner)) + (m.finish + ("\n" + Join(post, "\n"))))
    ensures Offset([m.begin] + inner) == |m.begin + Between(inner)|
  {
    JoinSplit(pre, BlockLines(m, inner) + post);
    ConcatAssoc([m.begin] + inner, [m.finish], post);
    JoinSplit([m.begin] + inner, [m.finish] + post);
    InnerText(m.begin, inner);
    assert ([m.finish] + post)[1..] == post;
    ConcatAssoc(m.finish, "\n", Join(post, "\n"));
  }

  /** Where the markers are found. */
  lemma BlockIsFound(pre: seq<string>, m: Markers, inner: seq<string>, post: seq<string>)
    requires BlockStandsAlone(pre, m, inner) && post != []
    ensures IndexOf(WithBlock(pre, m, inner, post), m.begin) == Some(|Before(pre)|)
    ensures IndexOf(WithBlock(pre, m, inner, post), m.finish) == Some(|Before(pre)| + |m.begin + Between(inner)|)
  {
    hide Join, IndexOf, IsBlank, Contains;
    var b, f := m.begin, m.finish;
    ConcatAssoc([b], inner, [f]);
    ConcatAssoc([b], inner + [f], post);
    FoundInLine(pre, b, (inner + [f]) + post);
    ConcatAssoc([b] + inner, [f], post);
    ConcatAssoc(pre, [b] + inner, [f] + post);
    NoneContainsConcat([b], inner, f);
    NoneContainsConcat(pre, [b] + inner, f);
    FoundInLine(pre + ([b] + inner), f, post);
    OffsetConcat(pre, [b] + inner);
    JoinSplit(pre, [b]);
    PartsOfBlock(pre, m, inner, post);
  }

  lemma OffsetConcat(a: seq<string>, b: seq<string>)
    requires b != []
    ensures Offset(a + b) == Offset(a) + Offset(b)
  {
    JoinSplit(a, b);
  }

  lemma InnerText(b: string, inner: seq<string>)
    ensures Before([b] + inner) == b + Between(inner)
  {
    JoinConcat([""] + inner, [""], "\n");
    assert ([b] + inner)[1..] == inner && ([""] + inner)[1..] == inner;
    if inner != [] {
      var j := Join(inner, "\n");
      assert Join([b] + inner, "\n") == b + "\n" + j;
      assert Join([""] + inner, "\n") == "" + "\n" + j;
      assert (b + "\n" + j) + "\n" == b + (("" + "\n" + j) + "\n" + "");
    } else {
      assert b + "\n" == b + ("" + "\n" + "");
    }
  }

  /** Slicing a text made of consecutive parts. */
  lemma SliceParts(a: string, x: string, y: string, e: string)
    ensures var s := a + (x + (y + e));
      && s[..|a|] == a
      && s[|a| + |x| + |y|..] == e
      && |s| == |a| + |x| + |y| + |e|
  {
  }

  lemma SliceBetween(a: string, b: string, c: string, y: string)
    ensures BodyAt(a + ((b + c) + y), Some(|a|), Some(|a| + |b + c|), |b|) == Ok(Some(c))
  {
    assert (a + ((b + c) + y))[|a| + |b|..|a| + |b + c|] == c;
  }

  lemma HashIsNotBlank(content: string, m: string)
    requires MarkerLike(m) && Contains(content, m)
    ensures !IsBlank(content)
  {
    var p := IndexOf(content, m).value;
    OccursChar(content, m, p, 0);
    BlankMeansAllSpaces(content);
    assert !IsSpace(content[p]);
  }

  lemma JoinAroundBlock(pre: seq<string>, m: Markers, inner: seq<string>, post: seq<string>)
    requires post != []
    ensures WithBlock(pre, m, inner, post) == Before(pre) + BlockText(m, inner) + Join(post, "\n")
  {
    JoinSplit(pre, BlockLines(m, inner) + post);
    JoinConcat(BlockLines(m, inner), post, "\n");
    ConcatAssoc(Before(pre), BlockText(m, inner), Join(post, "\n"));
  }

  lemma BeforeEndsWithBreak(pre: seq<string>)
    ensures Before(pre) == "" || Before(pre)[|Before(pre)| - 1] == '\n'
  {
  }

  /** Merging into a text whose parts around the block are known. */
  lemma MergeKnown(content: string, i: nat, j: nat, width: nat, a: string, e: string, block: string)
    requires i <= j && j + width <= |content| && content != ""
    requires content[..i] == a && content[j + width..] == "\n" + e
    requires a == "" || a[|a| - 1] == '\n'
    ensures MergeAt(content, Some(i), Some(j), width, block) == Ok(a + block + e)
  {
    assert ("\n" + e)[1..] == e;
    assert a + "" == a;
  }

  lemma MergeParts(a: string, x: string, y: string, e: string, block: string)
    requires (a == "" || a[|a| - 1] == '\n') && x != ""
    ensures MergeAt(a + (x + (y + ("\n" + e))), Some(|a|), Some(|a| + |x|), |y|, block) == Ok(a + block + e)
  {
    hide MergeAt;
    SliceParts(a, x, y, "\n" + e);
    MergeKnown(a + (x + (y + ("\n" + e))), |a|, |a| + |x|, |y|, a, e, block);
  }

  /** Saving again replaces the block where it stands and touches nothing else. */
  lemma {:induction false} MergeReplaces(
      pre: seq<string>, m: Markers, inner: seq<string>, post: seq<string>, next: seq<string>)
    requires BlockStandsAlone(pre, m, inner) && post != []
    ensures Merge(Some(WithBlock(pre, m, inner, post)), BlockText(m, next), m) == Ok(WithBlock(pre, m, next, post))
  {
    hide Join, IndexOf, IsBlank, Contains, Before, Between, BlockText, BlockLines, WithBlock, MergeAt;
    var content := WithBlock(pre, m, inner, post);
    BlockIsFound(pre, m, inner, post);
    PartsOfBlock(pre, m, inner, post);
    HashIsNotBlank(content, m.begin);
    BeforeEndsWithBreak(pre);
    MergeParts(Before(pre), m.begin + Between(inner), m.finish, Join(post, "\n"), BlockText(m, next));
    JoinAroundBlock(pre, m, next, post);
  }

  /** The lines after a block has been appended: a blank line stands before it. */
  function Appended(lines: seq<string>, m: Markers, inner: seq<string>): seq<string>
    requires lines != []
  {
    lines + (if lines[|lines| - 1] == "" then [] else [""]) + (BlockLines(m, inner) + [""])
  }

  lemma {:induction false} LastChar(lines: seq<string>)
    requires lines != [] && AllLines(lines)
    ensures var s := Join(lines, "\n");
      lines[|lines| - 1] == "" <==> s == "" || s[|s| - 1] == '\n'
    decreases |lines|
  {
    if |lines| > 1 {
      LastChar(lines[1..]);
      var rest := Join(lines[1..], "\n");
      var s := Join(lines, "\n");
      assert s == lines[0] + "\n" + rest;
      if rest != "" {
        assert s[|s| - 1] == rest[|rest| - 1];
      }
    }
  }

  /** A first save adds the block at the end, behind an empty line. */
  lemma {:induction false} MergeAppends(lines: seq<string>, m: Markers, inner: seq<string>)
    requires lines != [] && AllLines(lines) && MarkersOk(m)
    requires NoneContains(lines, m.begin) && NoneContains(lines, m.finish)
    requires !IsBlank(Join(lines, "\n"))
    ensures Merge(Some(Join(lines, "\n")), BlockText(m, inner), m) == Ok(Join(Appended(lines, m, inner), "\n"))
  {
    var content := Join(lines, "\n");
    NotInJoin(lines, m.begin);
    NotInJoin(lines, m.finish);
    LastChar(lines);
    AppendedText(lines, m, inner);
  }

  lemma {:induction false} AppendedText(lines: seq<string>, m: Markers, inner: seq<string>)
    requires lines != []
    ensures Join(Appended(lines, m, inner), "\n")
         == Join(lines, "\n") + (if lines[|lines| - 1] == "" then "\n" else "\n\n") + BlockText(m, inner)
  {
    var block := BlockLines(m, inner);
    if lines[|lines| - 1] == "" {
      assert lines + [] == lines;
      JoinTail(lines, block);
    } else {
      JoinTail(lines + [""], block);
      JoinConcat(lines, [""], "\n");
      TwoBreaks(Join(lines, "\n"));
    }
  }

  lemma JoinTail(lines: seq<string>, block: seq<string>)
    requires lines != [] && block != []
    ensures Join(lines + (block + [""]), "\n") == Join(lines, "\n") + "\n" + (Join(block, "\n") + "\n")
  {
    JoinConcat(block, [""], "\n");
    JoinConcat(lines, block + [""], "\n");
    assert Join(block, "\n") + "\n" + "" == Join(block, "\n") + "\n";
  }

  lemma TwoBreaks(s: string)
    ensures s + "\n" + "" + "\n" == s + "\n\n"
  {
  }

  /** A line without one final carriage return. */
  function DropCr(line: string): string {
    if line != "" && line[|line| - 1] == '\r' then line[..|line| - 1] else line
  }

  function DropLastCr(pre: seq<string>): seq<string>
    requires pre != []
  {
    pre[..|pre| - 1] + [DropCr(pre[|pre| - 1])]
  }

  /** The lines after the block between `pre` and `post` has been removed. */
  function Removed(pre: seq<string>, post: seq<string>): seq<string> {
    if pre == [] || DropLastCr(pre) == [""] then post
    else if post == [""] then DropLastCr(pre) + [""]
    else DropLastCr(pre) + ([""] + post)
  }

  lemma TrailingBreakOfLine(a: string, last: string)
    requires a == "" || a[|a| - 1] == '\n'
    ensures WithoutTrailingBreak(a + last + "\n") == a + DropCr(last)
  {
    var s := a + last + "\n";
    assert s[..|s| - 1] == a + last;
    if last != "" {
      assert s[|s| - 2] == last[|last| - 1];
      assert s[..|s| - 2] == a + last[..|last| - 1];
    } else if a != "" {
      assert s[|s| - 2] == a[|a| - 1];
    }
  }

  lemma TrailingBreakOfJoin(pre: seq<string>)
    requires pre != []
    ensures WithoutTrailingBreak(Before(pre)) == Join(DropLastCr(pre), "\n")
  {
    var front, last := pre[..|pre| - 1], pre[|pre| - 1];
    assert pre == front + [last];
    JoinSplit(front, [last]);
    JoinSplit(front, [DropCr(last)]);
    BeforeEndsWithBreak(front);
    TrailingBreakOfLine(Before(front), last);
  }

  lemma JoinIsEmpty(lines: seq<string>)
    requires lines != []
    ensures Join(lines, "\n") == "" <==> lines == [""]
  {
    if |lines| == 1 {
      assert lines == [lines[0]];
    }
  }

  lemma RemoveParts(a: string, x: string, y: string, e: string)
    ensures RemoveAt(a + (x + (y + ("\n" + e))), Some(|a|), Some(|a| + |x|), |y|)
         == Ok(Some(Rejoined(WithoutTrailingBreak(a), e)))
  {
    SliceParts(a, x, y, "\n" + e);
    assert ("\n" + e)[1..] == e;
  }

  lemma RejoinedLines(pre: seq<string>, post: seq<string>)
    requires post != []
    ensures Rejoined(WithoutTrailingBreak(Before(pre)), Join(post, "\n")) == Join(Removed(pre, post), "\n")
  {
    JoinIsEmpty(post);
    if pre != [] {
      var kept := DropLastCr(pre);
      var k, e := Join(kept, "\n"), Join(post, "\n");
      TrailingBreakOfJoin(pre);
      JoinIsEmpty(kept);
      JoinConcat(kept, [""], "\n");
      JoinConcat(kept, [""] + post, "\n");
      JoinConcat([""], post, "\n");
      assert k + "\n" + "" == k + "\n";
      assert k + "\n" + ("" + "\n" + e) == k + "\n\n" + e;
    }
  }

  /** Removing takes the block out and joins what is left with one empty line. */
  lemma {:induction false} RemoveTakesOut(pre: seq<string>, m: Markers, inner: seq<string>, post: seq<string>)
    requires BlockStandsAlone(pre, m, inner) && post != []
    ensures Remove(Some(WithBlock(pre, m, inner, post)), m) == Ok(Some(Join(Removed(pre, post), "\n")))
  {
    hide Join, IndexOf, IsBlank, Contains, Before, Between, BlockText, BlockLines, WithBlock, RemoveAt;
    hide Rejoined, Removed;
    var content := WithBlock(pre, m, inner, post);
    BlockIsFound(pre, m, inner, post);
    PartsOfBlock(pre, m, inner, post);
    HashIsNotBlank(content, m.begin);
    RemoveParts(Before(pre), m.begin + Between(inner), m.finish, Join(post, "\n"));
    RejoinedLines(pre, post);
  }

  /** The parser cuts out exactly the text between the markers. */
  lemma {:induction false} BodyIsBetween(pre: seq<string>, m: Markers, inner: seq<string>, post: seq<string>)
    requires BlockStandsAlone(pre, m, inner) && post != []
    ensures BlockBody(WithBlock(pre, m, inner, post), m) == Ok(Some(Between(inner)))
  {
    hide Join, IndexOf, IsBlank, Contains;
    BlockIsFound(pre, m, inner, post);
    PartsOfBlock(pre, m, inner, post);
    SliceBetween(Before(pre), m.begin, Between(inner), m.finish + ("\n" + Join(post, "\n")));
  }

  lemma {:induction false} AbsentBlock(lines: seq<string>, m: Markers)
    requires MarkersOk(m) && NoneContains(lines, m.begin) && NoneContains(lines, m.finish)
    ensures Remove(Some(Join(lines, "\n")), m) == Ok(Some(Join(lines, "\n")))
    ensures BlockBody(Join(lines, "\n"), m) == Ok(None)
  {
    NotInJoin(lines, m.begin);
    NotInJoin(lines, m.finish);
  }

  lemma EmptyLineHoldsNone(m: string)
    requires MarkerLike(m)
    ensures NoneContains([""], m)
  {
    Differs("", m, 0, 0);
    OnlyAtTheStart("", m);
  }

  /**
   * Removing a block that was just added is no exact inverse: the line breaks that set the block off
   * stay behind at the end, one or two of them, and nothing else.
   */
  lemma {:induction false} RemoveAfterMerge(lines: seq<string>, m: Markers, inner: seq<string>)
    requires lines != [] && AllLines(lines) && !IsBlank(Join(lines, "\n")) && BlockStandsAlone(lines, m, inner)
    ensures Merge(Some(Join(lines, "\n")), BlockText(m, inner), m).Ok?
    ensures Remove(Some(Merge(Some(Join(lines, "\n")), BlockText(m, inner), m).value), m)
         == Ok(Some(Join(lines, "\n") + (if lines[|lines| - 1] == "" then "\n" else "\n\n")))
  {
    hide Join, IndexOf, IsBlank, Contains, BlockLines, BlockText, Remove, Merge, MarkerLike, Removed, Appended;
    var gap := WithGap(lines);
    MergeAppends(lines, m, inner);
    AppendedIsBlock(lines, m, inner);
    EmptyLineHoldsNone(m.begin);
    EmptyLineHoldsNone(m.finish);
    NoneContainsConcat(lines, [""], m.begin);
    NoneContainsConcat(lines, [""], m.finish);
    RemoveTakesOut(gap, m, inner, [""]);
    BlankLineIsBlank();
    RemovedGap(lines);
    GapText(lines);
  }

  function WithGap(lines: seq<string>): seq<string>
    requires lines != []
  {
    if lines[|lines| - 1] == "" then lines else lines + [""]
  }

  lemma AppendedIsBlock(lines: seq<string>, m: Markers, inner: seq<string>)
    requires lines != []
    ensures Join(Appended(lines, m, inner), "\n") == WithBlock(WithGap(lines), m, inner, [""])
  {
    hide Join, BlockLines;
    assert lines + [] == lines;
  }

  lemma RemovedGap(lines: seq<string>)
    requires lines != [] && lines != [""]
    ensures Removed(WithGap(lines), [""]) == WithGap(lines) + [""]
  {
    var gap := WithGap(lines);
    assert gap != [""];
    assert DropLastCr(gap) == gap;
  }

  lemma {:induction false} GapText(lines: seq<string>)
    requires lines != []
    ensures Join(WithGap(lines) + [""], "\n") == Join(lines, "\n") + (if lines[|lines| - 1] == "" then "\n" else "\n\n")
  {
    hide Join;
    var content := Join(lines, "\n");
    JoinConcat(WithGap(lines), [""], "\n");
    JoinConcat(lines, [""], "\n");
    OneEmptyLine();
    TwoBreaks(content);
    assert content + "\n" + "" == content + "\n";
  }

  lemma OneEmptyLine()
    ensures Join([""], "\n") == ""
  {
  }

  lemma BlankLineIsBlank()
    ensures IsBlank(Join([""], "\n"))
  {
  }

  /** In a blank file, or where there is none, the block is the whole file, and nothing is left when it goes. */
  lemma {:induction false} RemoveAfterMergeBlank(existing: Option<string>, m: Markers, inner: seq<string>)
    requires (existing.None? || IsBlank(existing.value)) && BlockStandsAlone([], m, inner)
    ensures Merge(existing, BlockText(m, inner), m) == Ok(BlockText(m, inner))
    ensures Remove(Some(BlockText(m, inner)), m) == Ok(Some(""))
  {
    hide IndexOf, IsBlank, Contains, BlockLines, Remove, MergeAt, MarkerLike, Join;
    RemoveTakesOut([], m, inner, [""]);
    JoinAroundBlock([], m, inner, [""]);
    OneEmptyLine();
    NothingBeforeFirst();
    assert "" + BlockText(m, inner) + "" == BlockText(m, inner);
  }

  lemma NothingBeforeFirst()
    ensures Before([]) == "" && Removed([], [""]) == [""]
  {
  }

  /** The file a first save was made to. */
  predicate NoBlockIn(existing: Option<string>, m: Markers) {
    existing.Some? ==> !Contains(existing.value, m.begin) && !Contains(existing.value, m.finish)
  }

  /** A first save and a removal after it: what they leave of any file without the block. */
  function LeftBehind(existing: Option<string>): string {
    if existing.None? || IsBlank(existing.value) then ""
    else
      var content := existing.value;
      content + if content[|content| - 1] == '\n' then "\n" else "\n\n"
  }

  /** Removing what was just added gives the file back exactly when it was there and empty. */
  lemma {:induction false} RemoveUndoesMergeIff(existing: Option<string>, m: Markers, inner: seq<string>)
    requires NoBlockIn(existing, m) && MarkersOk(m) && NoneContains(inner, m.finish)
    ensures Merge(existing, BlockText(m, inner), m).Ok?
    ensures var back := Remove(Some(Merge(existing, BlockText(m, inner), m).value), m);
      && back == Ok(Some(LeftBehind(existing)))
      && (back == Ok(existing) <==> existing == Some(""))
  {
    hide IndexOf, Contains, BlockLines, BlockText, Remove, Merge, MarkerLike, Join, TrimStart, TrimEnd;
    if existing.None? || IsBlank(existing.value) {
      RemoveAfterMergeBlank(existing, m, inner);
    } else {
      var lines := Lines(existing.value);
      LinesHoldNone(lines, m.begin);
      LinesHoldNone(lines, m.finish);
      RemoveAfterMerge(lines, m, inner);
      LastChar(lines);
    }
  }

  lemma {:induction false} LinesHoldNone(lines: seq<string>, m: string)
    requires !Contains(Join(lines, "\n"), m)
    ensures NoneContains(lines, m)
    decreases |lines|
  {
    hide Contains;
    if |lines| > 1 {
      ConcatAssoc(lines[0], "\n", Join(lines[1..], "\n"));
      FirstHoldsNone(lines[0], "\n" + Join(lines[1..], "\n"), m);
      RestHoldsNone(lines[0] + "\n", Join(lines[1..], "\n"), m);
      LinesHoldNone(lines[1..], m);
    }
  }

  lemma FirstHoldsNone(a: string, b: string, m: string)
    requires !Contains(a + b, m)
    ensures !Contains(a, m)
  {
    hide IndexOf;
    ContainsIff(a, m);
    ContainsIff(a + b, m);
    forall p: nat
      ensures !OccursAt(a, m, p)
    {
      if p + |m| <= |a| {
        OccursLeft(a, b, m, p);
      }
    }
  }

  lemma RestHoldsNone(a: string, b: string, m: string)
    requires !Contains(a + b, m)
    ensures !Contains(b, m)
  {
    hide IndexOf;
    ContainsIff(b, m);
    ContainsIff(a + b, m);
    forall p: nat
      ensures !OccursAt(b, m, p)
    {
      OccursRight(a, b, m, |a| + p);
    }
  }

  // ---------- texts with a block anywhere in a line ----------

  /** A line break, or none where there is none. */
  predicate BreaksBefore(brk: string, rest: string) {
    brk == "\n" || brk == "\r\n" || (brk == "" && !("\n" <= rest) && !("\r\n" <= rest))
  }

  predicate BreaksAfter(head: string, brk: string) {
    || brk == "\r\n" || (brk == "\n" && (head == "" || head[|head| - 1] != '\r'))
    || (brk == "" && (head == "" || head[|head| - 1] != '\n'))
  }

  /** The markers of a block are found where `block` stands in a text. */
  predicate FoundIn(before: string, block: string, after: string, m: Markers) {
    var content := before + (block + after);
    && !IsBlank(content)
    && IndexOf(content, m.begin) == Some(|before|)
    && IndexOf(content, m.finish).Some? && |before| <= IndexOf(content, m.finish).value
    && IndexOf(content, m.finish).value + |m.finish| == |before| + |block|
  }

  /**
   * Merging into any text: into a blank one, the block is all there is; behind one without the block's markers, it
   * follows after an empty line; the old block, wherever its markers stand, is replaced, and what is before and
   * after it stays, with a line break put in front where there was none.
   */
  lemma {:induction false} MergingAnswers(
      before: string, old_: string, brk: string, rest: string, m: Markers, next: string)
    requires BreaksBefore(brk, rest)
    ensures IsBlank(before) ==> Merge(Some(before), next, m) == Ok(next)
    ensures Merge(None, next, m) == Ok(next)
    ensures !IsBlank(before) && IndexOf(before, m.begin).None? && IndexOf(before, m.finish).None? ==>
      Merge(Some(before), next, m) == Ok(before + (if before[|before| - 1] == '\n' then "\n" else "\n\n") + next)
    ensures FoundIn(before, old_, brk + rest, m) ==>
      Merge(Some(before + (old_ + (brk + rest))), next, m)
      == Ok(before + (if before == "" || before[|before| - 1] == '\n' then "" else "\n") + next + rest)
  {
    hide IndexOf, IsBlank;
    BlankWhenEmpty();
    if FoundIn(before, old_, brk + rest, m) {
      var content := before + (old_ + (brk + rest));
      assert content[..|before|] == before && content[|before| + |old_|..] == brk + rest;
      BreakGoes(brk, rest);
    }
  }

  lemma BlankWhenEmpty()
    ensures IsBlank("")
  {
  }

  lemma BreakGoes(brk: string, rest: string)
    requires BreaksBefore(brk, rest)
    ensures WithoutLeadingBreak(brk + rest) == rest
  {
    if brk == "" {
      assert brk + rest == rest;
    }
  }

  lemma BreakBehindGoes(head: string, brk: string)
    requires BreaksAfter(head, brk)
    ensures WithoutTrailingBreak(head + brk) == head
  {
    if brk == "" {
      assert head + brk == head;
    } else {
      assert (head + brk)[..|head|] == head;
    }
  }

  /**
   * Removing from any text: a blank one, or one without the block's markers, stays; otherwise the block goes with one
   * line break on each side, and one empty line joins what is left, if there is something on both sides.
   */
  lemma {:induction false} RemovingAnswers(
      head: string, brk0: string, old_: string, brk: string, rest: string, m: Markers)
    requires BreaksAfter(head, brk0) && BreaksBefore(brk, rest)
    ensures Remove(None, m) == Ok(None)
    ensures IsBlank(head) || (IndexOf(head, m.begin).None? && IndexOf(head, m.finish).None?) ==>
      Remove(Some(head), m) == Ok(Some(head))
    ensures FoundIn(head + brk0, old_, brk + rest, m) ==>
      Remove(Some(head + brk0 + (old_ + (brk + rest))), m)
      == Ok(Some(if head == "" then rest else if rest == "" then head + "\n" else head + "\n\n" + rest))
  {
    hide IndexOf, IsBlank, WithoutLeadingBreak, WithoutTrailingBreak;
    if FoundIn(head + brk0, old_, brk + rest, m) {
      var before := head + brk0;
      var content := before + (old_ + (brk + rest));
      assert content[..|before|] == before && content[|before| + |old_|..] == brk + rest;
      BreakGoes(brk, rest);
      BreakBehindGoes(head, brk0);
    }
  }
}
