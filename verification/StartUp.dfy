/** What start-up makes of a file whose last save may have put the text of a marker into a value. */
module StartUp {
  import opened Text
  import opened JsonText
  import opened EnvFile
  import opened EnvValues
  import opened ManagedFile
  import opened MarkersInValues
  import opened SetupEnv

  // ---------- the text after a save ----------

  predicate NoLineOfOther(pre: seq<string>, kind: Kind, post: seq<string>) {
    NoneOf(pre, MarkersOf(Other(kind))) && NoneOf(post, MarkersOf(Other(kind)))
  }

  /** Every save of this kind succeeds and puts its block between these lines; no marker of it stands before. */
  ghost predicate Puts(content: Option<string>, kind: Kind, pre: seq<string>, post: seq<string>) {
    && NoneOf(pre, MarkersOf(kind)) && post != []
    && forall block: seq<Assignment> ::
         Step(content, Save(kind, block)) == Ok(Some(WithBlock(pre, MarkersOf(kind), InnerOf(kind, block), post)))
  }

  /** A file that a run can reach has a place for the block, whatever its values. */
  lemma {:induction false} SavePlace(content: Option<string>, d: Doc, kind: Kind)
      returns (pre: seq<string>, post: seq<string>)
    requires Represents(content, d)
    ensures Puts(content, kind, pre, post)
    ensures SavedIn(d.sections, Other(kind)) == None ==> NoLineOfOther(pre, kind, post)
  {
    hide IsBlank, MarkersOf, DocOk, DocText, BlockOf, MergeAt, IndexOf, NoLineOfOther, Merge, InnerOf, NoneOf, Step;
    hide WithBlock;
    if content.None? || IsBlank(content.value) {
      pre, post := [], [""];
      StartsAFile(content, kind, []);
      forall block: seq<Assignment>
        ensures Step(content, Save(kind, block)) ==
            Ok(Some(WithBlock(pre, MarkersOf(kind), InnerOf(kind, block), post)))
      {
        StartsAFile(content, kind, block);
      }
    } else if SavedIn(d.sections, kind).None? {
      pre, post := AppendPlace(d, kind);
    } else {
      var a, s, b := SplitAt(d.sections, kind);
      assert d == Doc(d.head, a + ([s] + b));
      pre, post := ReplacePlace(d.head, a, s, b);
    }
  }

  lemma {:induction false} StartsAFile(content: Option<string>, kind: Kind, block: seq<Assignment>)
    requires content.None? || IsBlank(content.value)
    ensures Step(content, Save(kind, block)) == Ok(Some(BlockOf(kind, block)))
    ensures BlockOf(kind, block) == WithBlock([], MarkersOf(kind), InnerOf(kind, block), [""])
    ensures NoneOf([], MarkersOf(kind)) && NoLineOfOther([], kind, [""])
  {
    hide IsBlank, MarkersOf, InnerOf, Join, Contains, MarkerLike;
    var lines := BlockLines(MarkersOf(kind), InnerOf(kind, block));
    BlockThenNothing(lines);
    assert [] + (lines + [""]) == lines + [""];
    EmptyHoldsNoneOf(kind);
    EmptyHoldsNoneOf(Other(kind));
  }

  lemma {:induction false} EmptyHoldsNoneOf(kind: Kind)
    ensures NoneOf([], MarkersOf(kind)) && NoneOf([""], MarkersOf(kind))
  {
    hide MarkersOf, MarkerLike, Contains;
    MarkersAreApart(kind, kind);
    EmptyLineHoldsNone(MarkersOf(kind).begin);
    EmptyLineHoldsNone(MarkersOf(kind).finish);
  }

  lemma {:induction false} AppendPlace(d: Doc, kind: Kind) returns (pre: seq<string>, post: seq<string>)
    requires DocOk(d) && SavedIn(d.sections, kind).None? && !IsBlank(DocText(d))
    ensures Puts(Some(DocText(d)), kind, pre, post)
    ensures SavedIn(d.sections, Other(kind)) == None ==> NoLineOfOther(pre, kind, post)
    ensures DocLines(d) != [] && pre == WithGap(DocLines(d)) && post == [""]
  {
    hide Join, MarkersOf, InnerOf, DocLines, BlockLines, Merge, SectionsOk, BlockText, IsBlank, Contains, GapOk;
    hide WithBlock, Appended, MarkerLike;
    var lines := DocLines(d);
    AbsentIsNone(d.sections, kind);
    DocHasNone(d, kind);
    DocLinesAreLines(d);
    MarkersAreApart(kind, kind);
    pre, post := WithGap(lines), [""];
    forall block: seq<Assignment>
      ensures Step(Some(DocText(d)), Save(kind, block))
           == Ok(Some(WithBlock(pre, MarkersOf(kind), InnerOf(kind, block), post)))
    {
      MergeAppends(lines, MarkersOf(kind), InnerOf(kind, block));
      AppendedIsBlock(lines, MarkersOf(kind), InnerOf(kind, block));
    }
    EmptyHoldsNoneOf(kind);
    EmptyHoldsNoneOf(Other(kind));
    NoneOfConcat(lines, [""], MarkersOf(kind));
    if SavedIn(d.sections, Other(kind)) == None {
      AbsentIsNone(d.sections, Other(kind));
      DocHasNone(d, Other(kind));
      NoneOfConcat(lines, [""], MarkersOf(Other(kind)));
    }
  }

  lemma {:induction false} ReplacePlace(head: seq<string>, a: seq<Section>, s: Section, b: seq<Section>)
      returns (pre: seq<string>, post: seq<string>)
    requires DocOk(Doc(head, a + ([s] + b)))
    ensures Puts(Some(DocText(Doc(head, a + ([s] + b)))), s.kind, pre, post)
    ensures SavedIn(a + ([s] + b), Other(s.kind)) == None ==> NoLineOfOther(pre, s.kind, post)
    ensures pre == DocLines(Doc(head, a)) && post == s.tail + LinesOf(b)
  {
    hide Join, MarkersOf, InnerOf, DocLines, BlockLines, LinesOf, GapOk, Merge, SectionsOk, SavedIn, BlockText;
    hide Contains, WithBlock, BlockOk, MarkerLike, NoneOf;
    pre, post := DocLines(Doc(head, a)), s.tail + LinesOf(b);
    StandsAlone(head, a, s, b);
    SplitOk(a, s, b);
    DocHasNone(Doc(head, a), s.kind);
    forall block: seq<Assignment>
      ensures Step(Some(DocText(Doc(head, a + ([s] + b)))), Save(s.kind, block))
           == Ok(Some(WithBlock(pre, MarkersOf(s.kind), InnerOf(s.kind, block), post)))
    {
      MergeReplaces(pre, MarkersOf(s.kind), InnerOf(s.kind, s.block), post, InnerOf(s.kind, block));
    }
    if SavedIn(a + ([s] + b), Other(s.kind)) == None {
      ViewsAround(head, a, s, b, Other(s.kind));
      AbsentIsNone(a, Other(s.kind));
      AbsentIsNone(b, Other(s.kind));
      DocHasNone(Doc(head, a), Other(s.kind));
      GapHasNone(s.tail, Other(s.kind));
      SectionsHaveNone(b, Other(s.kind));
      NoneOfConcat(s.tail, LinesOf(b), MarkersOf(Other(s.kind)));
    }
  }

  // ---------- what the two parsers find ----------

  lemma {:induction false} OwnParse(pre: seq<string>, kind: Kind, block: seq<Assignment>, post: seq<string>)
    requires Named(block) && NoneOf(pre, MarkersOf(kind)) && post != []
    ensures ParseBlock(WithBlock(pre, MarkersOf(kind), InnerOf(kind, block), post), MarkersOf(kind)) ==
            if HoldsNone(block, MarkersOf(kind).finish) then Ok(Some(Assigned(map[], block))) else Err(FileInvalid)
  {
    hide ParseBlock, WithBlock, MarkersOf, InnerOf, NoneOf, IsName, Assigned, HoldsNone;
    if HoldsNone(block, MarkersOf(kind).finish) {
      OwnBlockIsRead(pre, kind, block, post);
    } else {
      OwnBlockIsCut(pre, kind, block, post);
    }
  }

  /** The provider block's assignments are set first, the role block's after them. */
  function Merged(kind: Kind, own: Env, other: Env): Env {
    if kind.Provider? then own + other else other + own
  }

  /** Start-up needs both parses. */
  lemma TwoParses(text: string, kind: Kind, env: Env)
    ensures LoadedFile(env, Some(text)) ==
      match (ParseBlock(text, MarkersOf(kind)), ParseBlock(text, MarkersOf(Other(kind))))
      case (Ok(own), Ok(other)) => Ok(Loaded(env, Merged(kind, OrEmpty(own), OrEmpty(other))))
      case _ => Err(FileInvalid)
  {
    hide ParseBlock, MarkersOf, Loaded;
    LoadedNothing(env);
    assert kind == Provider || kind == Roles;
  }

  /**
   * The values start-up can live with in a document: none holds the block's own END marker, and the parser of the
   * other block is not misled; it cannot be when that block is in the file already and stands first.
   */
  predicate AcceptedIn(d: Doc, kind: Kind, block: seq<Assignment>) {
    var o := MarkersOf(Other(kind));
    && HoldsNone(block, MarkersOf(kind).finish)
    && if SavedIn(d.sections, Other(kind)) == None then HarmlessToOther(block, o)
       else if SavedIn(d.sections, kind) == None then true
       else d.sections != [] && (d.sections[0].kind == kind ==> HarmlessBefore(block, o, d.sections[0].tail))
  }

  /** What the parser of the other block finds then. */
  function FoundOfOther(d: Doc, kind: Kind, block: seq<Assignment>): Env
    requires AcceptedIn(d, kind, block)
  {
    var o := MarkersOf(Other(kind));
    match SavedIn(d.sections, Other(kind))
    case None => OrEmpty(StrayOf(block, o))
    case Some(there) =>
      if SavedIn(d.sections, kind) == None || d.sections[0].kind != kind then Assigned(map[], there)
      else FoundBefore(block, o, d.sections[0].tail, there)
  }

  lemma {:induction false} TwoAtMost(ss: seq<Section>)
    requires SectionsOk(ss)
    ensures |ss| <= 2
  {
    hide SectionOk;
    assert |ss| > 2 ==> ss[0].kind != ss[1].kind && ss[1].kind != ss[2].kind;
  }

  lemma NotBothInOne(ss: seq<Section>, kind: Kind)
    requires |ss| <= 1
    ensures SavedIn(ss, kind).None? || SavedIn(ss, Other(kind)).None?
  {
    if ss != [] {
      assert ss[1..] == [];
    }
  }

  /** Both blocks there already: the document has two sections. */
  lemma {:induction false} BothThere(ss: seq<Section>, kind: Kind)
    requires SectionsOk(ss) && SavedIn(ss, kind).Some? && SavedIn(ss, Other(kind)).Some?
    ensures |ss| == 2 && ss == [ss[0]] + [ss[1]]
    ensures ss[0].kind == kind ==> ss[1].kind == Other(kind)
    ensures ss[0].kind != kind ==> ss[0].kind == Other(kind) && ss[1].kind == kind
  {
    hide SectionOk;
    TwoAtMost(ss);
    if |ss| <= 1 {
      NotBothInOne(ss, kind);
    }
  }

  /** The other block is in the document, this one is not: it goes behind the other one. */
  lemma {:induction false} AppendedBehindOther(d: Doc, kind: Kind, block: seq<Assignment>)
    requires DocOk(d) && SavedIn(d.sections, kind).None? && SavedIn(d.sections, Other(kind)).Some?
    requires !IsBlank(DocText(d))
    ensures var r := Step(Some(DocText(d)), Save(kind, block));
      && r.Ok? && r.value.Some?
      && ParseBlock(r.value.value, MarkersOf(Other(kind)))
         == Ok(Some(Assigned(map[], SavedIn(d.sections, Other(kind)).value)))
  {
    hide Join, MarkersOf, InnerOf, BlockLines, SectionsOk, IsBlank, GapOk, ParseBlock, LinesOf, WithBlock, Assigned;
    hide DocLines, BlockOk, IsName, NoneOf, Step;
    var lines := DocLines(d);
    var pre, post := AppendPlace(d, kind);
    var a, t, b := SplitAt(d.sections, Other(kind));
    assert d == Doc(d.head, a + ([t] + b));
    AroundSection(d.head, a, t, b);
    SplitOk(a, t, b);
    DocHasNone(Doc(d.head, a), Other(kind));
    var front, own := DocLines(Doc(d.head, a)), BlockLines(MarkersOf(kind), InnerOf(kind, block));
    var there := BlockLines(MarkersOf(t.kind), InnerOf(t.kind, t.block));
    var gap := if lines[|lines| - 1] == "" then [] else [""];
    var behind := (t.tail + LinesOf(b)) + (gap + (own + [""]));
    assert pre == lines + gap;
    assert pre + (own + post) == front + (there + behind);
    SameText(pre, MarkersOf(kind), InnerOf(kind, block), post, front, MarkersOf(t.kind), InnerOf(t.kind, t.block),
        behind);
    OtherBeforeIsRead(front, t.kind, t.block, behind);
  }

  lemma SameText(
      a: seq<string>, m: Markers, x: seq<string>, b: seq<string>, c: seq<string>, n: Markers, y: seq<string>,
      e: seq<string>)
    requires a + (BlockLines(m, x) + b) == c + (BlockLines(n, y) + e)
    ensures WithBlock(a, m, x, b) == WithBlock(c, n, y, e)
  {
    hide BlockLines, Join;
  }

  /** Both blocks are in the document and the other one stands first. */
  lemma {:induction false} ReplacedBehindOther(head: seq<string>, t: Section, s: Section, block: seq<Assignment>)
    requires DocOk(Doc(head, [t] + [s])) && t.kind == Other(s.kind)
    ensures var r := Step(Some(DocText(Doc(head, [t] + [s]))), Save(s.kind, block));
      r.Ok? && r.value.Some? && ParseBlock(r.value.value, MarkersOf(t.kind)) == Ok(Some(Assigned(map[], t.block)))
  {
    hide MarkersOf, InnerOf, BlockLines, Step, SectionsOk, DocText, WithBlock, GapOk, ParseBlock, Assigned;
    hide MarkerLike, BlockOk, NoneOf, LinesOf, DocLines;
    assert [t] + [s] == [t] + ([s] + []) && [t] + [s] == [] + ([t] + [s]);
    var pre, post := ReplacePlace(head, [t], s, []);
    SplitOk([], t, [s]);
    SplitOk([t], s, []);
    GapHasNone(head, t.kind);
    TailsStand(head, t, s);
    var m, own := MarkersOf(t.kind), BlockLines(MarkersOf(s.kind), InnerOf(s.kind, block));
    var there := BlockLines(m, InnerOf(t.kind, t.block));
    assert pre + (own + post) == head + (there + (t.tail + (own + s.tail)));
    SameText(pre, MarkersOf(s.kind), InnerOf(s.kind, block), post, head, m, InnerOf(t.kind, t.block),
             t.tail + (own + s.tail));
    OtherBeforeIsRead(head, t.kind, t.block, t.tail + (own + s.tail));
  }

  lemma TailsStand(head: seq<string>, t: Section, s: Section)
    requires SectionOk(s)
    ensures DocLines(Doc(head, [t])) == head + (BlockLines(MarkersOf(t.kind), InnerOf(t.kind, t.block)) + t.tail)
    ensures s.tail + LinesOf([]) == s.tail
    ensures forall lines: seq<string> :: lines + s.tail != []
  {
    hide BlockLines, MarkersOf, InnerOf;
    NoSections();
    OneSection(t);
  }

  /** Both blocks are in the document and this one stands first. */
  lemma {:induction false} ReplacedBeforeOther(head: seq<string>, s: Section, t: Section, block: seq<Assignment>)
    requires DocOk(Doc(head, [s] + [t])) && t.kind == Other(s.kind) && Named(block)
    ensures var r := Step(Some(DocText(Doc(head, [s] + [t]))), Save(s.kind, block));
      && r.Ok? && r.value.Some?
      && r.value.value == BothBlocks(head, s.kind, block, s.tail, t.block, t.tail)
      && LaterOk(s.kind, head, block, s.tail, t.block) && t.tail != []
      && ParseBlock(r.value.value, MarkersOf(t.kind))
         == if HarmlessBefore(block, MarkersOf(t.kind), s.tail)
            then Ok(Some(FoundBefore(block, MarkersOf(t.kind), s.tail, t.block))) else Err(FileInvalid)
  {
    hide MarkersOf, InnerOf, BlockLines, Step, SectionsOk, DocText, ParseBlock, HarmlessBefore, FoundBefore;
    hide MarkerLike, IsName, NoneOf, ValueOk, NoNewline, WithBlock, MarkerFree, Assigned;
    assert [s] + [t] == [] + ([s] + [t]);
    var pre, post := ReplacePlace(head, [], s, [t]);
    SplitOk([], s, [t]);
    NoSections();
    OneSection(t);
    assert [t][0] == t;
    TailIsThere(t, [t]);
    GapHasNone(head, t.kind);
    GapHasNone(s.tail, t.kind);
    assert pre == head && post == LaterLines(s.kind, s.tail, t.block, t.tail);
    OtherLaterIsRead(head, s.kind, block, s.tail, t.block, t.tail);
  }

  lemma TailIsThere(t: Section, ss: seq<Section>)
    requires SectionsOk(ss) && t in ss
    ensures SectionOk(t)
  {
  }

  /**
   * From any file a run can reach, a save of any values: it succeeds, start-up accepts the file exactly when the
   * values are accepted in the document, and then it loads the saved values and what is found of the other block.
   */
  lemma {:induction false} DocSaveIsRead(
      content: Option<string>, d: Doc, kind: Kind, block: seq<Assignment>, env: Env)
    requires Represents(content, d) && Named(block)
    ensures var r := Step(content, Save(kind, block));
      && r.Ok?
      && LoadedFile(env, r.value) ==
         if AcceptedIn(d, kind, block)
         then Ok(Loaded(env, Merged(kind, Assigned(map[], block), FoundOfOther(d, kind, block))))
         else Err(FileInvalid)
  {
    hide DocOk, DocText, Step, LoadedFile, Loaded, MarkersOf, IsName, HoldsNone, HarmlessToOther, NoneOf;
    hide HarmlessBefore, ParseBlock, IsBlank, SavedIn, Assigned, StrayOf, FoundBefore, Merged, WithBlock, BothBlocks;
    hide InnerOf;
    var pre, post := SavePlace(content, d, kind);
    var text := WithBlock(pre, MarkersOf(kind), InnerOf(kind, block), post);
    assert Step(content, Save(kind, block)) == Ok(Some(text));
    OwnParse(pre, kind, block, post);
    TwoParses(text, kind, env);
    if SavedIn(d.sections, Other(kind)) == None {
      OtherBlockIsRead(pre, kind, block, post);
    } else {
      OtherIsThere(content, d, kind);
      if SavedIn(d.sections, kind) == None {
        AppendedBehindOther(d, kind, block);
      } else {
        DocParts(d);
        BothThere(d.sections, kind);
        SavedInTwo(d.sections[0], d.sections[1], Other(kind));
        if d.sections[0].kind == kind {
          ReplacedBeforeOther(d.head, d.sections[0], d.sections[1], block);
        } else {
          ReplacedBehindOther(d.head, d.sections[0], d.sections[1], block);
        }
      }
    }
  }

  lemma SavedInTwo(s: Section, t: Section, kind: Kind)
    requires s.kind != t.kind
    ensures SavedIn([s] + [t], kind) == if s.kind == kind then Some(s.block) else Some(t.block)
  {
    assert ([s] + [t])[1..] == [t] && [t][1..] == [];
    assert s.kind == kind || t.kind == kind;
  }

  lemma DocParts(d: Doc)
    requires DocOk(d)
    ensures SectionsOk(d.sections) && d == Doc(d.head, d.sections)
  {
  }

  lemma SomeSection(ss: seq<Section>, kind: Kind)
    requires SavedIn(ss, kind).Some?
    ensures ss != []
  {
  }

  lemma {:induction false} OtherIsThere(content: Option<string>, d: Doc, kind: Kind)
    requires Represents(content, d) && SavedIn(d.sections, Other(kind)) != None
    ensures content == Some(DocText(d)) && !IsBlank(DocText(d))
  {
    hide DocOk, DocText, IsBlank;
    EmptyIsBlank();
    SomeSection(d.sections, Other(kind));
    if IsBlank(DocText(d)) {
      BlankDocIsEmpty(d);
    }
  }

  // ---------- when nothing but the saved values is loaded ----------

  /** What a name is set to when the other block is set over, or beside, this one and the environment. */
  function Behind(env: Env, own: Env, other: Env, n: string): Option<string> {
    if n in other then Some(other[n]) else if n in own then Some(own[n]) else if n in env then Some(env[n]) else None
  }

  /** Two readings of the other block make no difference to what is loaded beside this one. */
  predicate SameLoad(env: Env, kind: Kind, own: Env, found: Env, meant: Env) {
    forall n :: n in found.Keys + meant.Keys ==>
      (Loads(env, n) && (kind.Provider? || n !in own) ==> Behind(env, own, found, n) == Behind(env, own, meant, n))
  }

  lemma LoadedAt(env: Env, all: Env, n: string)
    ensures n in Loaded(env, all) <==> n in env || (n in all && Loads(env, n))
    ensures n in Loaded(env, all) ==> Loaded(env, all)[n] == if n in all && Loads(env, n) then all[n] else env[n]
  {
    hide Loads;
  }

  lemma SameEnv(x: Env, y: Env)
    requires forall n: string :: SameAt(x, y, n)
    ensures x == y
  {
    forall n: string
      ensures n in x.Keys <==> n in y.Keys
    {
      assert SameAt(x, y, n);
    }
    assert x.Keys == y.Keys;
    forall n | n in x.Keys
      ensures x[n] == y[n]
    {
      assert SameAt(x, y, n);
    }
  }

  predicate SameAt(x: Env, y: Env, n: string) {
    (n in x <==> n in y) && (n in x ==> x[n] == y[n])
  }

  lemma SameLoadAt(env: Env, kind: Kind, own: Env, found: Env, meant: Env, n: string)
    ensures SameAt(Loaded(env, Merged(kind, own, found)), Loaded(env, Merged(kind, own, meant)), n) <==>
      (n in found.Keys + meant.Keys ==>
         (Loads(env, n) && (kind.Provider? || n !in own) ==> Behind(env, own, found, n) == Behind(env, own, meant, n)))
  {
    hide Loads, Loaded;
    LoadedAt(env, Merged(kind, own, found), n);
    LoadedAt(env, Merged(kind, own, meant), n);
  }

  lemma {:induction false} SameLoadIff(env: Env, kind: Kind, own: Env, found: Env, meant: Env)
    ensures Loaded(env, Merged(kind, own, found)) == Loaded(env, Merged(kind, own, meant)) <==>
            SameLoad(env, kind, own, found, meant)
  {
    hide Loads, Loaded, Merged, Behind;
    var x, y := Loaded(env, Merged(kind, own, found)), Loaded(env, Merged(kind, own, meant));
    forall n: string {
      SameLoadAt(env, kind, own, found, meant, n);
    }
    if SameLoad(env, kind, own, found, meant) {
      forall n: string
        ensures SameAt(x, y, n)
      {
        SameLoadAt(env, kind, own, found, meant, n);
      }
      SameEnv(x, y);
    }
  }

  /** Start-up loads this block as given and the other one as saved before. */
  predicate LoadsBoth(r: Result<Env, EnvError>, d: Doc, kind: Kind, block: seq<Assignment>, env: Env) {
    r == Ok(Loaded(env, Merged(kind, Assigned(map[], block), OrEmpty(Meaning(SavedIn(d.sections, Other(kind)))))))
  }

  /** The values are accepted, and what they make the other parser find is what was saved, or makes no difference. */
  predicate SurvivesIn(d: Doc, kind: Kind, block: seq<Assignment>, env: Env) {
    && AcceptedIn(d, kind, block)
    && SameLoad(env, kind, Assigned(map[], block), FoundOfOther(d, kind, block),
                OrEmpty(Meaning(SavedIn(d.sections, Other(kind)))))
  }

  lemma {:induction false} DocSaveSurvivesIff(
      content: Option<string>, d: Doc, kind: Kind, block: seq<Assignment>, env: Env)
    requires Represents(content, d) && Named(block)
    ensures var r := Step(content, Save(kind, block));
      && r.Ok?
      && (LoadedFile(env, r.value).Ok? <==> AcceptedIn(d, kind, block))
      && (LoadsBoth(LoadedFile(env, r.value), d, kind, block, env) <==> SurvivesIn(d, kind, block, env))
  {
    hide DocOk, DocText, Step, LoadedFile, Loaded, AcceptedIn, FoundOfOther, SameLoad, IsName, Merged, Assigned,
        SavedIn;
    DocSaveIsRead(content, d, kind, block, env);
    if AcceptedIn(d, kind, block) {
      SameLoadIff(env, kind, Assigned(map[], block), FoundOfOther(d, kind, block),
                  OrEmpty(Meaning(SavedIn(d.sections, Other(kind)))));
    }
  }

  // ---------- whole runs ----------

  lemma {:induction false} RunConcat(content: Option<string>, ops: seq<Op>, op: Op)
    requires Run(content, ops).Ok?
    ensures Run(content, ops + [op]) == Step(Run(content, ops).value, op)
    decreases |ops|
  {
    hide Step;
    if ops == [] {
      assert [] + [op] == [op] && [op][1..] == [];
    } else {
      assert (ops + [op])[1..] == ops[1..] + [op];
      RunConcat(Step(content, ops[0]).value, ops[1..], op);
    }
  }

  /**
   * After any run of good saves and clears on any unmanaged file, and then a save of any values: the save succeeds;
   * start-up accepts the file exactly when the values are accepted in the document the run has come to; and it loads
   * these values and the other block as last saved exactly when, besides, the other parser is led to no difference.
   */
  lemma {:induction false} NextSaveIsReadIff(
      content: Option<string>, ops: seq<Op>, kind: Kind, block: seq<Assignment>, env: Env) returns (d: Doc)
    requires IsUnmanaged(content) && (forall i :: 0 <= i < |ops| ==> OpOk(ops[i])) && Named(block)
    ensures Run(content, ops).Ok? && Represents(Run(content, ops).value, d)
    ensures forall k: Kind :: SavedIn(d.sections, k) == LastSaved(None, ops, k)
    ensures var r := Run(content, ops + [Save(kind, block)]);
      && r.Ok?
      && (LoadedFile(env, r.value).Ok? <==> AcceptedIn(d, kind, block))
      && (LoadsBoth(LoadedFile(env, r.value), d, kind, block, env) <==> SurvivesIn(d, kind, block, env))
  {
    hide DocOk, DocText, IsUnmanaged, Step, LoadedFile, AcceptedIn, Run, BlockOk, IsName, LoadsBoth, SurvivesIn;
    UnmanagedDoc(content);
    d := RunKeepsDoc(content, Doc(Lines(TextOf(content)), []), ops);
    RunConcat(content, ops, Save(kind, block));
    DocSaveSurvivesIff(Run(content, ops).value, d, kind, block, env);
  }

  /**
   * With the other block in the file as well, and values without a marker of it: each block is read back as
   * last saved exactly when no value of this one holds its own END marker; otherwise start-up rejects the file.
   */
  lemma {:induction false} NextSaveBesideOther(
      content: Option<string>, ops: seq<Op>, kind: Kind, block: seq<Assignment>, env: Env)
    requires IsUnmanaged(content) && (forall i :: 0 <= i < |ops| ==> OpOk(ops[i])) && Named(block)
    requires HoldsNone(block, MarkersOf(Other(kind)).begin) && HoldsNone(block, MarkersOf(Other(kind)).finish)
    ensures var r := Run(content, ops + [Save(kind, block)]);
      && r.Ok?
      && (LoadedFile(env, r.value).Ok? <==> HoldsNone(block, MarkersOf(kind).finish))
      && (LoadedFile(env, r.value).Ok? ==> forall k: Kind ::
            ParseBlock(TextOf(r.value), MarkersOf(k)) == Ok(Meaning(LastSaved(None, ops + [Save(kind, block)], k))))
  {
    hide DocOk, DocText, IsUnmanaged, Step, Loaded, NoLineOfOther, Assigned, Run, MarkersOf, WithBlock, InnerOf;
    hide ParseBlock;
    hide IsName, Contains, LastSaved, NoneOf, Loads;
    var all := ops + [Save(kind, block)];
    if HoldsNone(block, MarkersOf(kind).finish) {
      forall i | 0 <= i < |all|
        ensures OpOk(all[i])
      {
        assert i < |ops| ==> all[i] == ops[i] && OpOk(ops[i]);
      }
      forall k: Kind
        ensures Run(content, all).Ok?
        ensures ParseBlock(TextOf(Run(content, all).value), MarkersOf(k)) == Ok(Meaning(LastSaved(None, all, k)))
      {
        RunsAreReadBack(content, all, k);
      }
      RunsAreReadBack(content, all, kind);
      assert ParseBlock(TextOf(Run(content, all).value), MarkersOf(Provider)).Ok?;
      assert ParseBlock(TextOf(Run(content, all).value), MarkersOf(Roles)).Ok?;
    } else {
      UnmanagedDoc(content);
      var d := RunKeepsDoc(content, Doc(Lines(TextOf(content)), []), ops);
      RunConcat(content, ops, Save(kind, block));
      var pre, post := SavePlace(Run(content, ops).value, d, kind);
      OwnBlockIsCut(pre, kind, block, post);
      assert kind == Provider || kind == Roles;
    }
  }

  // ---------- requests ----------

  lemma {:induction false} ProviderBlockIsNamed(s: Setup)
    ensures Named(ProviderBlock(s))
  {
    hide IsName, ValueOk, SWITCHES, CONFIG_IDS, STRUCTURED;
    FixedBlocksAreOk();
    AccessNames();
  }

  lemma {:induction false} SetOnesAreNamed(names: seq<string>, values: seq<string>)
    requires |names| == |values| && forall i :: 0 <= i < |names| ==> IsName(names[i])
    ensures Named(SetOnes(names, values))
    decreases |names|
  {
    hide IsName;
    if names != [] {
      SetOnesAreNamed(names[1..], values[1..]);
    }
  }

  lemma {:induction false} RolesBlockIsNamed(d: RoleDefaults)
    ensures Named(RolesBlock(d))
  {
    hide IsName, SetOnes;
    forall i | 0 <= i < |ROLE_VARS|
      ensures IsName(ROLE_VARS[i])
    {
      RoleNames(ROLE_VARS[i]);
    }
    SetOnesAreNamed(ROLE_VARS, RoleValues(d));
  }

  /**
   * A setup, or role defaults, that pass validation, saved to any file a run can reach: start-up accepts the file
   * exactly when the printed values are accepted in it, and what was saved survives the restart, with the other
   * block as it was, exactly when, besides, the other parser is led to no difference.
   */
  lemma {:induction false} SavedRequestSurvivesIff(checks: Checks, st: State, d: Doc, request: Request, env: Env)
    requires Represents(st.file, d) && OpOf(checks, request).Ok? && OpOf(checks, request).value.Save?
    ensures var op, next := OpOf(checks, request).value, Handle(checks, st, request);
      && next.Ok?
      && (LoadedFile(env, next.value.file).Ok? <==> AcceptedIn(d, op.kind, op.block))
      && (LoadsBoth(LoadedFile(env, next.value.file), d, op.kind, op.block, env) <==>
            SurvivesIn(d, op.kind, op.block, env))
  {
    hide NormalizeSetup, NormalizeRoleDefaults, Step, LoadedFile, ProviderBlock, RolesBlock, AcceptedIn, LoadsBoth;
    hide SurvivesIn, AppliedSetup, AppliedRoles, IsName, Represents;
    match request {
      case SaveSetup(input) => ProviderBlockIsNamed(NormalizeSetup(checks, input).value);
      case SaveRoleDefaults(defaults) => RolesBlockIsNamed(NormalizeRoleDefaults(checks, defaults).value);
    }
    DocSaveSurvivesIff(st.file, d, OpOf(checks, request).value.kind, OpOf(checks, request).value.block, env);
  }

  // ---------- inputs that are accepted and then rejected ----------

  /** The normalizer lets a marker through as it is. */
  lemma {:induction false} MarkerIsAccepted(kind: Kind)
    ensures NormalizeText(MarkersOf(kind).begin) == Ok(MarkersOf(kind).begin)
    ensures NormalizeText(MarkersOf(kind).finish) == Ok(MarkersOf(kind).finish)
  {
    hide MarkersOf, TrimStart, TrimEnd, MarkerLike;
    MarkersAreApart(kind, kind);
    MarkersAreShort(kind);
    MarkerLikeIsAccepted(MarkersOf(kind).begin);
    MarkerLikeIsAccepted(MarkersOf(kind).finish);
  }

  lemma MarkersAreShort(kind: Kind)
    ensures var m := MarkersOf(kind);
      && |m.begin| <= 64 && |m.finish| <= 64
      && m.begin[|m.begin| - 1] == 'P' && m.finish[|m.finish| - 1] == 'P'
  {
  }

  lemma MarkerLikeIsAccepted(m: string)
    requires MarkerLike(m) && |m| <= 2048 && m[|m| - 1] == 'P'
    ensures NormalizeText(m) == Ok(m)
  {
    hide TrimStart, TrimEnd;
    assert Trim(m) == m;
    forall i | 0 <= i < |m|
      ensures m[i] != '\r' && m[i] != '\n'
    {
      assert i > 0 ==> MarkerChar(m[i]);
    }
  }

  /** A value that is the other block's BEGIN marker: the own block is read, and the file is rejected. */
  lemma {:induction false} OtherBeginIsRejected(name: string, env: Env)
    requires IsName(name)
    ensures var block := [Assignment(name, MarkersOf(Roles).begin)];
      && ParseBlock(BlockOf(Provider, block), MarkersOf(Provider)) == Ok(Some(Assigned(map[], block)))
      && ParseBlocks(BlockOf(Provider, block)) == Err(FileInvalid)
      && LoadedFile(env, Some(BlockOf(Provider, block))) == Err(FileInvalid)
  {
    hide IsName, MarkersOf, ParseBlock, InnerOf, Contains, WithBlock, Assigned, BlockOf, NoneOf, Step, Loaded;
    var block := [Assignment(name, MarkersOf(Roles).begin)];
    MarkersAreApart(Roles, Provider);
    MarkersAreApart(Roles, Roles);
    SelfContained(MarkersOf(Roles).begin);
    BlockStands(Provider, block);
    OwnBlockIsRead([], Provider, block, [""]);
    OtherBlockIsRead([], Provider, block, [""]);
    assert FirstHolding(block, MarkersOf(Roles).begin) == 0;
    assert block[1..] == [];
  }

  lemma {:induction false} BlockStands(kind: Kind, block: seq<Assignment>)
    ensures BlockOf(kind, block) == WithBlock([], MarkersOf(kind), InnerOf(kind, block), [""])
    ensures NoneOf([], MarkersOf(kind)) && NoneOf([], MarkersOf(Other(kind))) && NoneOf([""], MarkersOf(Other(kind)))
  {
    hide Step, BlockOf, WithBlock, MarkersOf, NoneOf, InnerOf;
    EmptyIsBlank();
    StartsAFile(None, kind, block);
  }

  /** A value that is its own block's END marker: the file is rejected. */
  lemma {:induction false} OwnEndIsRejected(name: string, kind: Kind, env: Env)
    requires IsName(name)
    ensures var block := [Assignment(name, MarkersOf(kind).finish)];
      && ParseBlock(BlockOf(kind, block), MarkersOf(kind)) == Err(FileInvalid)
      && LoadedFile(env, Some(BlockOf(kind, block))) == Err(FileInvalid)
  {
    hide IsName, MarkersOf, ParseBlock, InnerOf, Contains, WithBlock, BlockOf, NoneOf, Loaded;
    var block := [Assignment(name, MarkersOf(kind).finish)];
    SelfContained(MarkersOf(kind).finish);
    assert Contains(block[0].value, MarkersOf(kind).finish);
    BlockStands(kind, block);
    OwnBlockIsCut([], kind, block, [""]);
    assert kind == Provider || kind == Roles;
  }

  // ---------- an input that is accepted and then read as something else ----------

  /** A value that encloses a printed assignment in the markers of the other block. */
  function Enclosing(o: Markers, a: Assignment): string {
    o.begin + (" " + (PrintLine(a) + (" " + o.finish)))
  }

  lemma PlainBodyStays(t: string)
    requires forall i :: 0 <= i < |t| ==> EscapeChar(t[i]) == [t[i]]
    ensures EscapeBody(t) == t
  {
    hide EscapeChar;
    if t != "" {
      PlainBodyStays(t[1..]);
    }
  }

  /** The characters of a printed assignment of a plain value need no escape, and none is a hash or a line break. */
  lemma PlainLine(a: Assignment, i: nat)
    requires IsName(a.name) && IsPlainValue(a.value) && i < |PrintLine(a)|
    ensures var c := PrintLine(a)[i];
      EscapeChar(c) == [c] && c != '#' && c != '\n' && c != '\r'
  {
    if i < |a.name| {
      assert NameChar(a.name[i]);
    } else if i > |a.name| {
      assert PrintLine(a)[i] == a.value[i - |a.name| - 1];
    }
  }

  /** Where the hashes of such a value are. */
  lemma {:induction false} TwoHashes(o: Markers, a: Assignment)
    requires MarkerLike(o.begin) && MarkerLike(o.finish) && IsName(a.name) && IsPlainValue(a.value)
    ensures var v := Enclosing(o, a);
      forall p :: 0 <= p < |v| && v[p] == '#' ==> p == 0 || p == |o.begin| + |PrintLine(a)| + 2
  {
    hide PrintLine, IsName, IsPlainValue;
    var v, b, n := Enclosing(o, a), |o.begin|, |PrintLine(a)|;
    OneHashOnly(o.begin);
    OneHashOnly(o.finish);
    forall p | 0 < p < |v| && p != b + n + 2
      ensures v[p] != '#'
    {
      if b < p < b + n + 1 {
        PlainLine(a, p - b - 1);
        assert v[p] == PrintLine(a)[p - b - 1];
      } else if p > b + n + 2 {
        assert v[p] == o.finish[p - b - n - 2];
      }
    }
  }

  lemma {:induction false} EnclosingEncloses(o: Markers, a: Assignment)
    requires MarkerLike(o.begin) && MarkerLike(o.finish) && o.begin[2] != o.finish[2]
    requires IsName(a.name) && IsPlainValue(a.value)
    ensures var v := Enclosing(o, a);
      && IndexOf(v, o.begin) == Some(0) && IndexOf(v, o.finish) == Some(|o.begin| + |PrintLine(a)| + 2)
      && Encloses(v, o) && Enclosed(v, o) == " " + (PrintLine(a) + " ")
  {
    hide PrintLine, IsName, IsPlainValue, MarkerLike;
    var v, y := Enclosing(o, a), |o.begin| + |PrintLine(a)| + 2;
    MarkerFacts(o.begin);
    MarkerFacts(o.finish);
    TwoHashes(o, a);
    assert v[0..|o.begin|] == o.begin && v[y..y + |o.finish|] == o.finish;
    IndexIs(v, o.begin, 0);
    forall p: nat | p < y
      ensures !OccursAt(v, o.finish, p)
    {
      if p == 0 {
        Differs(v, o.finish, 0, 2);
      } else {
        Differs(v, o.finish, p, 0);
      }
    }
    IndexIs(v, o.finish, y);
    assert v[|o.begin|..y] == " " + (PrintLine(a) + " ");
  }

  lemma MarkerFacts(m: string)
    requires MarkerLike(m)
    ensures |m| > 20 && m[0] == '#'
  {
  }

  /** No other marker is in it. */
  lemma {:induction false} EnclosingHoldsNoOther(o: Markers, a: Assignment, x: string)
    requires MarkerLike(o.begin) && MarkerLike(o.finish) && MarkerLike(x)
    requires IsName(a.name) && IsPlainValue(a.value) && x[2] != o.begin[2] && !Contains(o.finish, x)
    ensures !Contains(Enclosing(o, a), x)
  {
    hide PrintLine, IsName, IsPlainValue, MarkerLike, Contains;
    var v, y := Enclosing(o, a), |o.begin| + |PrintLine(a)| + 2;
    MarkerFacts(o.begin);
    MarkerFacts(x);
    TwoHashes(o, a);
    forall p: nat
      ensures !OccursAt(v, x, p)
    {
      if p == 0 {
        Differs(v, x, 0, 2);
      } else if p == y {
        ContainsIff(o.finish, x);
        assert v == v[..y] + o.finish;
        OccursRight(v[..y], o.finish, x, y);
      } else {
        Differs(v, x, p, 0);
      }
    }
    ContainsIff(v, x);
  }

  lemma {:induction false} SpacedLineIsRead(a: Assignment)
    requires IsName(a.name) && IsPlainValue(a.value)
    ensures ReadLine(EscapeBody(" " + (PrintLine(a) + " "))) == Ok(Some(a))
  {
    hide PrintLine, IsName, IsPlainValue, EscapeChar, EscapeBody, ReadLine, Trim;
    var line := PrintLine(a);
    var t := " " + (line + " ");
    forall i | 0 <= i < |t|
      ensures EscapeChar(t[i]) == [t[i]]
    {
      if 0 < i <= |line| {
        PlainLine(a, i - 1);
      } else {
        SpaceStays();
      }
    }
    PlainBodyStays(t);
    SpacesGo(a);
    TrimmedIsRead(t, line);
    LineIsReadBack(a);
  }

  lemma TrimmedIsRead(x: string, y: string)
    requires Trim(x) == Trim(y)
    ensures ReadLine(x) == ReadLine(y)
  {
    hide Trim, IndexOf, IsName, ParseEnvAssignmentValue;
  }

  lemma SpaceStays()
    ensures EscapeChar(' ') == " "
  {
  }

  lemma SpacesGo(a: Assignment)
    requires IsName(a.name) && IsPlainValue(a.value)
    ensures Trim(" " + (PrintLine(a) + " ")) == PrintLine(a) && Trim(PrintLine(a)) == PrintLine(a)
  {
    hide IsName, IsPlainValue;
    var line := PrintLine(a);
    NameIsTidy(a.name);
    PrintedValueIsTidy(a.value);
    var v := FormatEnvAssignmentValue(a.value);
    assert line[0] == a.name[0] && line[|line| - 1] == v[|v| - 1];
    assert (" " + (line + " "))[1..] == line + " ";
    assert (line + " ")[..|line|] == line;
    assert TrimStart(line + " ") == line + " ";
    assert TrimEnd(line) == line;
  }

  /** Where one value of a block encloses an assignment and the others are good, the other parser finds just that. */
  lemma {:induction false} EnclosedIsStray(kind: Kind, block: seq<Assignment>, i: nat, a: Assignment)
    requires i < |block| && block[i].value == Enclosing(MarkersOf(Other(kind)), a)
    requires IsName(a.name) && IsPlainValue(a.value)
    requires forall j :: 0 <= j < |block| && j != i ==> ValueOk(kind, block[j].value)
    ensures var o := MarkersOf(Other(kind));
      && HoldsNone(block, MarkersOf(kind).finish) && HarmlessToOther(block, o)
      && StrayOf(block, o) == Some(map[a.name := a.value])
  {
    hide MarkersOf, PrintLine, IsName, IsPlainValue, MarkerLike, Contains, EscapeBody, ReadLine, Encloses, Enclosed;
    var o := MarkersOf(Other(kind));
    MarkersAreApart(kind, kind);
    MarkersAreApart(Other(kind), kind);
    ThirdCharacters(kind);
    ThirdCharacters(Other(kind));
    EnclosingEncloses(o, a);
    EnclosingHoldsNoOther(o, a, MarkersOf(kind).finish);
    SpacedLineIsRead(a);
    HeldThere(block[i].value, o);
    FirstHoldingAt(block, o.begin, i);
    FirstHoldingAt(block, o.finish, i);
  }

  lemma HeldThere(v: string, o: Markers)
    requires Encloses(v, o)
    ensures Contains(v, o.begin) && Contains(v, o.finish)
  {
  }

  lemma {:induction false} FirstHoldingAt(block: seq<Assignment>, m: string, i: nat)
    requires i < |block| && Contains(block[i].value, m) && forall j :: 0 <= j < i ==> !Contains(block[j].value, m)
    ensures FirstHolding(block, m) == i && !HoldsNone(block, m)
    decreases |block|
  {
    hide Contains;
    if i > 0 {
      assert !Contains(block[0].value, m);
      FirstHoldingAt(block[1..], m, i - 1);
    }
  }

  /** Such a value passes the normalizer as it is. */
  lemma {:induction false} EnclosingIsAccepted(kind: Kind, a: Assignment)
    requires IsName(a.name) && IsPlainValue(a.value) && |a.name| + |a.value| <= 1024
    ensures NormalizeText(Enclosing(MarkersOf(kind), a)) == Ok(Enclosing(MarkersOf(kind), a))
  {
    hide MarkersOf, IsName, IsPlainValue, TrimStart, TrimEnd, PrintLine, NoNewline;
    var o := MarkersOf(kind);
    var v := Enclosing(o, a);
    MarkersAreApart(kind, kind);
    MarkersAreShort(kind);
    PlainLength(a);
    assert v[|v| - 1] == o.finish[|o.finish| - 1];
    assert Trim(v) == v;
    forall i | 0 <= i < |v|
      ensures v[i] != '\r' && v[i] != '\n'
    {
      if |o.begin| < i <= |o.begin| + |PrintLine(a)| {
        PlainLine(a, i - |o.begin| - 1);
      } else if 0 < i < |o.begin| {
        assert MarkerChar(o.begin[i]);
      } else if i > |o.begin| + |PrintLine(a)| + 2 {
        assert MarkerChar(o.finish[i - |o.begin| - |PrintLine(a)| - 2]);
      }
    }
  }

  lemma PlainLength(a: Assignment)
    requires IsPlainValue(a.value)
    ensures |PrintLine(a)| == |a.name| + |a.value| + 1
  {
  }

  /** The index of the model in the provider block. */
  lemma {:induction false} ModelIsThere(s: Setup) returns (i: nat)
    ensures i < |ProviderBlock(s)| && ProviderBlock(s)[i] == OpenAI("MODEL", s.model)
    ensures ValueOk(Provider, s.apiKey) && ValueOk(Provider, s.baseUrl) ==>
      forall j :: 0 <= j < |ProviderBlock(s)| && j != i ==> ValueOk(Provider, ProviderBlock(s)[j].value)
  {
    hide ValueOk, IsName, SWITCHES, CONFIG_IDS, STRUCTURED;
    FixedBlocksAreOk();
    i := |ProviderBlock(s)| - 2;
  }

  /**
   * A model text that encloses an assignment to a managed variable, with nothing else wrong: the setup is accepted,
   * the live daemon uses that text as its model, start-up accepts the file, and then sets the variable as the text
   * says. When the variable is the model itself, the setup does not survive the restart.
   */
  lemma {:induction false} ModelTextSetsAVariable(
      checks: Checks, st: State, input: SetupInput, env: Env, a: Assignment)
    requires (st.file.None? || IsBlank(st.file.value)) && NormalizeSetup(checks, input).Ok?
    requires var s := NormalizeSetup(checks, input).value;
      && s.model == Enclosing(MarkersOf(Roles), a)
      && ValueOk(Provider, s.apiKey) && ValueOk(Provider, s.baseUrl)
    requires IsName(a.name) && IsPlainValue(a.value) && Loads(env, a.name)
    ensures var next := Handle(checks, st, SaveSetup(input));
      && next.Ok?
      && Lookup(next.value.env, OPENAI + "MODEL") == NormalizeSetup(checks, input).value.model
      && LoadedFile(env, next.value.file).Ok?
      && Lookup(LoadedFile(env, next.value.file).value, a.name) == a.value
      && NormalizeSetup(checks, input).value.model != a.value
  {
    hide IsBlank, NormalizeSetup, Step, LoadedFile, ProviderBlock, BlockOf, MarkersOf, IsName, IsPlainValue, Loaded;
    hide Loads, AppliedSetup, Assigned, ValueOk, HarmlessToOther, StrayOf, NoneOf, InnerOf, WithBlock;
    hide HoldsNone, ParseBlock, Lookup, PrintLine;
    var s := NormalizeSetup(checks, input).value;
    var block, o := ProviderBlock(s), MarkersOf(Roles);
    var i := ModelIsThere(s);
    ProviderBlockIsNamed(s);
    SetupIsApplied(st.env, s, i);
    EnclosedIsStray(Provider, block, i, a);
    StartsAFile(st.file, Provider, block);
    OwnParse([], Provider, block, [""]);
    OtherBlockIsRead([], Provider, block, [""]);
    TwoParses(BlockOf(Provider, block), Provider, env);
    LoadedStray(env, Assigned(map[], block), a);
    StartsWithHash(s.model, a);
  }

  lemma LoadedStray(env: Env, own: Env, a: Assignment)
    requires Loads(env, a.name)
    ensures Lookup(Loaded(env, Merged(Provider, own, OrEmpty(Some(map[a.name := a.value])))), a.name) == a.value
  {
    hide Loads;
  }

  lemma StartsWithHash(v: string, a: Assignment)
    requires v == Enclosing(MarkersOf(Roles), a) && IsPlainValue(a.value)
    ensures v != a.value
  {
    assert v[0] == '#';
    assert a.value[0] != '#';
  }
}
