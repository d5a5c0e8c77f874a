/** What the steps after a save do to the file when that save has put the text of a marker into a value. */
module LaterSteps {
  import opened Text
  import opened EnvFile
  import opened EnvValues
  import opened ManagedFile
  import opened MarkersInValues
  import opened StartUp

  // ---------- the next save of the same block ----------

  /** When no value holds the END marker of its own block, the next save replaces the whole block. */
  lemma {:induction false} WholeBlockIsReplaced(
      pre: seq<string>, kind: Kind, block: seq<Assignment>, post: seq<string>, next: seq<Assignment>)
    requires Named(block) && HoldsNone(block, MarkersOf(kind).finish) && NoneOf(pre, MarkersOf(kind)) && post != []
    ensures Merge(Some(WithBlock(pre, MarkersOf(kind), InnerOf(kind, block), post)), BlockOf(kind, next),
        MarkersOf(kind))
         == Ok(WithBlock(pre, MarkersOf(kind), InnerOf(kind, next), post))
  {
    hide MarkersOf, InnerOf, Contains, IsName, MarkerLike, WithBlock, Merge, BlockText;
    MarkersAreApart(kind, kind);
    InnerHolds(kind, block, MarkersOf(kind).finish);
    MergeReplaces(pre, MarkersOf(kind), InnerOf(kind, block), post, InnerOf(kind, next));
  }

  /** An END marker in a value ends well before its block does. */
  lemma {:induction false} EndInValueIsEarly(pre: seq<string>, kind: Kind, block: seq<Assignment>)
    requires Named(block) && !HoldsNone(block, MarkersOf(kind).finish)
    ensures FirstHolding(block, MarkersOf(kind).finish) < |block|
    ensures PlaceInFile(pre, kind, block, MarkersOf(kind).finish) + |MarkersOf(kind).finish| + 2
          < Offset(pre + BlockLines(MarkersOf(kind), InnerOf(kind, block)))
  {
    hide IndexOf, MarkersOf, PrintLine, PlaceInLine, IsName, Offset, MarkerLike, LinesBefore, PrintLines, InnerOf,
        BlockLines, HoldsNone, Contains;
    var f := MarkersOf(kind).finish;
    MarkersAreApart(kind, kind);
    MarkerFacts(f);
    FirstHoldingIsFirst(block, f);
    var i := FirstHolding(block, f);
    var front, rest := pre + LinesBefore(kind, block, i), PrintLines(block[i + 1..]);
    LinesAround(pre, kind, block, [], i);
    assert pre + (BlockLines(MarkersOf(kind), InnerOf(kind, block)) + [])
        == pre + BlockLines(MarkersOf(kind), InnerOf(kind, block));
    assert front + ([PrintLine(block[i])] + (rest + ([f] + []))) == front + ([PrintLine(block[i])] + rest) + [f];
    OffsetsGrow(front, PrintLine(block[i]), rest);
    LineHolds(block[i], f);
    OffsetConcat(front + ([PrintLine(block[i])] + rest), [f]);
    OneLineOffset(f);
  }

  lemma OneLineOffset(x: string)
    ensures Offset([x]) == |x| + 1
  {
  }

  lemma {:induction false} BlockLength(pre: seq<string>, m: Markers, inner: seq<string>, post: seq<string>)
    requires post != []
    ensures |WithBlock(pre, m, inner, post)| == Offset(pre) + |BlockText(m, inner)| + |Join(post, "\n")|
    ensures Offset(pre + BlockLines(m, inner)) == Offset(pre) + |BlockText(m, inner)|
  {
    hide Join;
    JoinAroundBlock(pre, m, inner, post);
    JoinSplit(pre, post);
    OffsetConcat(pre, BlockLines(m, inner));
  }

  lemma MergedLength(content: string, b: nat, e: nat, width: nat, block: string)
    requires b <= e && e + width <= |content| && content != ""
    ensures var r := MergeAt(content, Some(b), Some(e), width, block);
      r.Ok? && |r.value| >= b + |block| + (|content| - e - width) - 2
  {
  }

  /** Otherwise the next save replaces the block up to that marker only, and the rest of the old block stays behind. */
  lemma {:induction false} RestStaysBehind(
      pre: seq<string>, kind: Kind, block: seq<Assignment>, post: seq<string>, next: seq<Assignment>)
    requires Named(block) && !HoldsNone(block, MarkersOf(kind).finish) && NoneOf(pre, MarkersOf(kind)) && post != []
    ensures var m := MarkersOf(kind);
      var r := Merge(Some(WithBlock(pre, m, InnerOf(kind, block), post)), BlockOf(kind, next), m);
      r.Ok? && |r.value| > |WithBlock(pre, m, InnerOf(kind, next), post)|
  {
    hide Join, MarkersOf, InnerOf, IsName, Contains, MarkerLike, PrintLine, Offset, IndexOf, PlaceInLine, HoldsNone;
    hide BlockLines, BlockText, MergeAt, IsBlank;
    var m := MarkersOf(kind);
    var content := WithBlock(pre, m, InnerOf(kind, block), post);
    MarkersAreApart(kind, kind);
    MarkerStart(m.begin);
    EndInValueIsEarly(pre, kind, block);
    FoundInValue(pre, kind, block, post, m.finish);
    FirstLineIsBegin(pre, m, InnerOf(kind, block), post);
    FoundInLine(pre, m.begin, InnerOf(kind, block) + ([m.finish] + post));
    HashIsNotBlank(content, m.begin);
    BlockLength(pre, m, InnerOf(kind, block), post);
    BlockLength(pre, m, InnerOf(kind, next), post);
    OffsetConcat(pre, LinesBefore(kind, block, FirstHolding(block, m.finish)));
    EmptyIsBlank();
    MergedLength(content, Offset(pre), PlaceInFile(pre, kind, block, m.finish), |m.finish|, BlockOf(kind, next));
  }

  /**
   * From any file a run can reach: a save of any values and then another one of the same block leave the file as if
   * only the second had been made, exactly when no value of the first holds the END marker of its own block.
   */
  lemma {:induction false} SecondSaveRepairsIff(
      content: Option<string>, d: Doc, kind: Kind, block: seq<Assignment>, next: seq<Assignment>)
    requires Represents(content, d) && Named(block)
    ensures var first := Step(content, Save(kind, block));
      && first.Ok? && Step(first.value, Save(kind, next)).Ok?
      && (Step(first.value, Save(kind, next)) == Step(content, Save(kind, next)) <==>
            HoldsNone(block, MarkersOf(kind).finish))
  {
    hide DocOk, DocText, MarkersOf, InnerOf, IsName, HoldsNone, NoneOf, WithBlock, Merge, BlockOf;
    var pre, post := SavePlace(content, d, kind);
    assert Step(content, Save(kind, block)) == Ok(Some(WithBlock(pre, MarkersOf(kind), InnerOf(kind, block), post)));
    assert Step(content, Save(kind, next)) == Ok(Some(WithBlock(pre, MarkersOf(kind), InnerOf(kind, next), post)));
    if HoldsNone(block, MarkersOf(kind).finish) {
      WholeBlockIsReplaced(pre, kind, block, post, next);
    } else {
      RestStaysBehind(pre, kind, block, post, next);
    }
  }

  // ---------- the next step of the other block ----------

  /** The first BEGIN in the values is not behind the first END; a marker that no value holds comes last. */
  predicate Ordered(block: seq<Assignment>, o: Markers) {
    var i, j := FirstHolding(block, o.begin), FirstHolding(block, o.finish);
    i < j || (i == j && (i < |block| ==> Encloses(block[i].value, o)))
  }

  /** The values of a saved block let a step of the other block find its markers in order. */
  predicate InOrderIn(d: Doc, kind: Kind, block: seq<Assignment>) {
    var o := MarkersOf(Other(kind));
    if SavedIn(d.sections, Other(kind)) == None then
      Ordered(block, o) && (HoldsNone(block, o.begin) <==> HoldsNone(block, o.finish))
    else if SavedIn(d.sections, kind) == None then true
    else d.sections != [] && (d.sections[0].kind == kind ==> Ordered(block, o))
  }

  predicate IsStepOf(op: Op, kind: Kind) {
    match op
    case Save(k, _) => k == kind
    case ClearRoles => kind == Roles
  }

  /** A step fails exactly when the parser would not find the block's text. */
  lemma StepNeedsBody(text: string, kind: Kind, op: Op)
    requires !IsBlank(text) && IsStepOf(op, kind)
    ensures Step(Some(text), op).Ok? <==> BlockBody(text, MarkersOf(kind)).Ok?
  {
    hide IsBlank, IndexOf, MarkersOf, BlockText, InnerOf;
  }

  lemma ParsedHasBody(text: string, m: Markers)
    requires ParseBlock(text, m).Ok?
    ensures BlockBody(text, m).Ok?
  {
    hide BlockBody, ReadLines, SplitAtBreaks;
  }

  predicate FoundInOrder(b: Option<nat>, e: Option<nat>) {
    (b.None? && e.None?) || (b.Some? && e.Some? && b.value <= e.value)
  }

  lemma BodyNeedsOrder(text: string, m: Markers)
    ensures BlockBody(text, m).Ok? <==> FoundInOrder(IndexOf(text, m.begin), IndexOf(text, m.finish))
  {
    hide IndexOf;
  }

  /** Two markers that values hold are found in the file in their order in the values. */
  lemma {:induction false} ValuesGiveTheOrder(pre: seq<string>, kind: Kind, block: seq<Assignment>)
    requires Named(block)
    requires var o := MarkersOf(Other(kind));
      FirstHolding(block, o.begin) < |block| && FirstHolding(block, o.finish) < |block|
    ensures var o := MarkersOf(Other(kind));
      PlaceInFile(pre, kind, block, o.begin) <= PlaceInFile(pre, kind, block, o.finish) <==> Ordered(block, o)
  {
    hide IndexOf, MarkersOf, PlaceInLine, IsName, Offset, MarkerLike, LinesBefore, PrintLine;
    var o := MarkersOf(Other(kind));
    var i, j := FirstHolding(block, o.begin), FirstHolding(block, o.finish);
    MarkersAreApart(Other(kind), Other(kind));
    if i < j {
      LaterPlace(pre, kind, block, o.begin, o.finish);
    } else if j < i {
      LaterPlace(pre, kind, block, o.finish, o.begin);
    } else {
      PlacesInOneValue(block[i], o.begin, o.finish);
      DifferentMarkers(block[i].value, Other(kind));
    }
  }

  lemma {:induction false} OrderAlone(pre: seq<string>, kind: Kind, block: seq<Assignment>, post: seq<string>)
    requires OnlyBlock(pre, kind, block, post)
    ensures var o := MarkersOf(Other(kind));
      BlockBody(WithBlock(pre, MarkersOf(kind), InnerOf(kind, block), post), o).Ok? <==>
      Ordered(block, o) && (HoldsNone(block, o.begin) <==> HoldsNone(block, o.finish))
  {
    hide IndexOf, MarkersOf, InnerOf, NoneOf, WithBlock, Encloses, HoldsNone, PlaceInFile, BlockBody, IsName,
        MarkerLike;
    var o := MarkersOf(Other(kind));
    BodyNeedsOrder(WithBlock(pre, MarkersOf(kind), InnerOf(kind, block), post), o);
    OtherMarkerFound(pre, kind, block, post, o.begin);
    OtherMarkerFound(pre, kind, block, post, o.finish);
    OtherMarkerAbsent(pre, kind, block, post, o.begin);
    OtherMarkerAbsent(pre, kind, block, post, o.finish);
    FirstHoldingIsFirst(block, o.begin);
    FirstHoldingIsFirst(block, o.finish);
    if !HoldsNone(block, o.begin) && !HoldsNone(block, o.finish) {
      ValuesGiveTheOrder(pre, kind, block);
    }
  }

  lemma {:induction false} OrderBefore(
      pre: seq<string>, kind: Kind, block: seq<Assignment>, tail: seq<string>, later: seq<Assignment>,
      post: seq<string>)
    requires LaterOk(kind, pre, block, tail, later) && post != []
    ensures var o := MarkersOf(Other(kind));
      BlockBody(BothBlocks(pre, kind, block, tail, later, post), o).Ok? <==> Ordered(block, o)
  {
    hide IndexOf, MarkersOf, InnerOf, NoneOf, WithBlock, Encloses, HoldsNone, PlaceInFile, BlockBody, IsName,
        MarkerLike;
    hide Front, LaterLines, AllLines, ValueOk, Offset;
    var o := MarkersOf(Other(kind));
    BodyNeedsOrder(BothBlocks(pre, kind, block, tail, later, post), o);
    LaterIsThere(kind, tail, later, post);
    MarkersAreApart(Other(kind), Other(kind));
    OtherMarkerFound(pre, kind, block, LaterLines(kind, tail, later, post), o.begin);
    OtherMarkerFound(pre, kind, block, LaterLines(kind, tail, later, post), o.finish);
    LaterMarkers(pre, kind, block, tail, later, post);
    FirstHoldingIsFirst(block, o.begin);
    FirstHoldingIsFirst(block, o.finish);
    OffsetConcat(Front(pre, kind, block, tail), [o.begin] + InnerOf(Other(kind), later));
    if !HoldsNone(block, o.begin) {
      ValueIsInFront(pre, kind, block, tail, o.begin);
    }
    if !HoldsNone(block, o.finish) {
      ValueIsInFront(pre, kind, block, tail, o.finish);
    }
    if !HoldsNone(block, o.begin) && !HoldsNone(block, o.finish) {
      ValuesGiveTheOrder(pre, kind, block);
    }
  }

  /**
   * From any file a run can reach, after a save of any values: a save of the other block, or a clear of it, succeeds
   * exactly when the values let it find the markers of its block in order.
   */
  lemma {:induction false} OtherStepSucceedsIff(
      content: Option<string>, d: Doc, kind: Kind, block: seq<Assignment>, op: Op)
    requires Represents(content, d) && Named(block) && IsStepOf(op, Other(kind))
    ensures var first := Step(content, Save(kind, block));
      first.Ok? && (Step(first.value, op).Ok? <==> InOrderIn(d, kind, block))
  {
    hide DocOk, DocText, Step, MarkersOf, IsName, HoldsNone, NoneOf, ParseBlock, IsBlank, SavedIn, Assigned;
    hide WithBlock, BothBlocks, InnerOf, Ordered, BlockBody, HarmlessBefore, FoundBefore, IsStepOf;
    var pre, post := SavePlace(content, d, kind);
    var text := WithBlock(pre, MarkersOf(kind), InnerOf(kind, block), post);
    assert Step(content, Save(kind, block)) == Ok(Some(text));
    BlockIsNotBlank(pre, kind, block, post);
    StepNeedsBody(text, Other(kind), op);
    if SavedIn(d.sections, Other(kind)) == None {
      OrderAlone(pre, kind, block, post);
    } else {
      OtherIsThere(content, d, kind);
      if SavedIn(d.sections, kind) == None {
        AppendedBehindOther(d, kind, block);
        ParsedHasBody(text, MarkersOf(Other(kind)));
      } else {
        DocParts(d);
        BothThere(d.sections, kind);
        var s, t := d.sections[0], d.sections[1];
        if s.kind == kind {
          ReplacedBeforeOther(d.head, s, t, block);
          OrderBefore(d.head, kind, block, s.tail, t.block, t.tail);
        } else {
          ReplacedBehindOther(d.head, s, t, block);
          ParsedHasBody(text, MarkersOf(Other(kind)));
        }
      }
    }
  }

  lemma {:induction false} BlockIsNotBlank(pre: seq<string>, kind: Kind, block: seq<Assignment>, post: seq<string>)
    requires NoneOf(pre, MarkersOf(kind))
    ensures !IsBlank(WithBlock(pre, MarkersOf(kind), InnerOf(kind, block), post))
  {
    hide Join, MarkersOf, InnerOf, Contains, MarkerLike, BlockLines, IsBlank, IndexOf;
    var m := MarkersOf(kind);
    MarkersAreApart(kind, kind);
    MarkerStart(m.begin);
    FirstLineIsBegin(pre, m, InnerOf(kind, block), post);
    FoundInLine(pre, m.begin, InnerOf(kind, block) + ([m.finish] + post));
    FoundIsContained(WithBlock(pre, m, InnerOf(kind, block), post), m.begin);
    HashIsNotBlank(WithBlock(pre, m, InnerOf(kind, block), post), m.begin);
  }

  lemma FoundIsContained(s: string, m: string)
    requires IndexOf(s, m).Some?
    ensures Contains(s, m)
  {
    hide IndexOf;
  }
}
