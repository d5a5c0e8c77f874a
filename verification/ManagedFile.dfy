/** The local env file over its whole life: saves and clears of the two managed blocks, read back at start-up. */
module ManagedFile {
  import opened Text
  import opened EnvFile
  import opened EnvValues

  // ---------- the two blocks ----------

  datatype Kind = Provider | Roles

  const BEGIN := "# BEGIN DELIBERUM "
  const END := "# END DELIBERUM "
  const PROVIDER_TITLE := "OPENAI-COMPATIBLE WEB SETUP"
  const ROLES_TITLE := "MODEL ROLE DEFAULTS WEB SETUP"

  function Title(kind: Kind): string {
    if kind.Provider? then PROVIDER_TITLE else ROLES_TITLE
  }

  function MarkersOf(kind: Kind): Markers {
    Markers(BEGIN + Title(kind), END + Title(kind))
  }

  // long texts are put together from pieces of a length the verifier can still look into
  const PROVIDER_COMMENT := "# Deliberum OpenAI" + "-compatible provider setup"
  const KEEP_LOCAL_COMMENT := "# Keep this file local. Do not" + " commit provider credentials."
  const ROLES_COMMENT := "# Deliberum non-secret" + " model role defaults"
  const NO_KEYS_COMMENT := "# This block must not contain" + (" API keys, base URLs," + " or provider config ids.")
  const GENERATED_COMMENT := "# Generated by" + " local Web setup."

  /** The three comment lines at the top of each block. */
  function CommentsOf(kind: Kind): seq<string> {
    if kind.Provider? then [PROVIDER_COMMENT, GENERATED_COMMENT, KEEP_LOCAL_COMMENT]
    else [ROLES_COMMENT, GENERATED_COMMENT, NO_KEYS_COMMENT]
  }

  function InnerOf(kind: Kind, block: seq<Assignment>): seq<string> {
    InnerLines(CommentsOf(kind), block)
  }

  function BlockOf(kind: Kind, block: seq<Assignment>): string {
    BlockText(MarkersOf(kind), InnerOf(kind, block))
  }

  predicate NoMarkerOf(line: string, m: Markers) {
    !Contains(line, m.begin) && !Contains(line, m.finish)
  }

  predicate MarkerFree(line: string) {
    NoMarkerOf(line, MarkersOf(Provider)) && NoMarkerOf(line, MarkersOf(Roles))
  }

  predicate IsTitle(title: string) {
    20 < |title| && (forall i :: 0 <= i < |title| ==> MarkerChar(title[i])) && (title[0] == 'O' || title[0] == 'M')
  }

  lemma TitlesAreTitles()
    ensures IsTitle(PROVIDER_TITLE) && IsTitle(ROLES_TITLE) && PROVIDER_TITLE[0] == 'O' && ROLES_TITLE[0] == 'M'
  {
  }

  lemma MarkersAreLike(title: string)
    requires IsTitle(title)
    ensures MarkerLike(BEGIN + title) && NoNewline(BEGIN + title)
    ensures MarkerLike(END + title) && NoNewline(END + title)
  {
    var b, e := BEGIN + title, END + title;
    forall i | 1 <= i < |b|
      ensures MarkerChar(b[i])
    {
      if i >= |BEGIN| {
        assert b[i] == title[i - |BEGIN|];
      }
    }
    forall i | 1 <= i < |e|
      ensures MarkerChar(e[i])
    {
      if i >= |END| {
        assert e[i] == title[i - |END|];
      }
    }
  }

  lemma OneHash(line: string, m: string, k: nat)
    requires MarkerLike(line) && MarkerLike(m) && k < |line| && k < |m| && line[k] != m[k]
    ensures !Contains(line, m)
  {
    Differs(line, m, 0, k);
    OnlyAtTheStart(line, m);
  }

  /** No marker of a block is inside another marker. */
  lemma {:induction false} MarkersAreApart(kind: Kind, other: Kind)
    ensures MarkersOk(MarkersOf(kind))
    ensures kind != other ==>
      NoMarkerOf(MarkersOf(kind).begin, MarkersOf(other)) && NoMarkerOf(MarkersOf(kind).finish, MarkersOf(other))
  {
    hide Contains, MarkerLike, IsTitle;
    TitlesAreTitles();
    MarkersAreLike(Title(kind));
    MarkersAreLike(Title(other));
    var m, o := MarkersOf(kind), MarkersOf(other);
    OneHash(m.begin, m.finish, 2);
    OneHash(m.begin, o.finish, 2);
    OneHash(m.finish, o.begin, 2);
    if kind != other {
      OneHash(m.begin, o.begin, 18);
      OneHash(m.finish, o.finish, 16);
    }
  }

  // ---------- comment lines ----------

  predicate CommentText(t: string) {
    forall i :: 0 <= i < |t| ==> t[i] >= ' ' && t[i] != '#'
  }

  predicate CommentStart(t: string) {
    |t| > 2 && t[0] == '#' && t[2] != 'B' && t[2] != 'E' && forall i :: 1 <= i < |t| ==> t[i] >= ' ' && t[i] != '#'
  }

  predicate IsComment(line: string) {
    CommentStart(line) && !IsSpace(line[|line| - 1])
  }

  lemma CommentInTwo(head: string, tail: string)
    requires CommentStart(head)
    requires CommentText(tail) && tail != "" && !IsSpace(tail[|tail| - 1])
    ensures IsComment(head + tail)
  {
  }

  lemma ProviderComment()
    ensures IsComment(PROVIDER_COMMENT)
  {
    CommentInTwo("# Deliberum OpenAI", "-compatible provider setup");
  }

  lemma KeepLocalComment()
    ensures IsComment(KEEP_LOCAL_COMMENT)
  {
    CommentInTwo("# Keep this file local. Do not", " commit provider credentials.");
  }

  lemma RolesComment()
    ensures IsComment(ROLES_COMMENT)
  {
    CommentInTwo("# Deliberum non-secret", " model role defaults");
  }

  lemma NoKeysComment()
    ensures IsComment(NO_KEYS_COMMENT)
  {
    var tail := " API keys, base URLs," + " or provider config ids.";
    NoKeysTail();
    CommentInTwo("# This block must not contain", tail);
  }

  lemma NoKeysTail()
    ensures CommentText(" API keys, base URLs," + " or provider config ids.")
  {
    assert CommentText(" API keys, base URLs,") && CommentText(" or provider config ids.");
  }

  lemma GeneratedComment()
    ensures IsComment(GENERATED_COMMENT)
  {
    CommentInTwo("# Generated by", " local Web setup.");
  }

  lemma {:induction false} CommentsAreComments(kind: Kind, i: nat)
    requires i < 3
    ensures |CommentsOf(kind)| == 3 && IsComment(CommentsOf(kind)[i])
  {
    hide IsComment;
    GeneratedComment();
    ProviderComment();
    KeepLocalComment();
    RolesComment();
    NoKeysComment();
  }

  lemma CommentIsHarmless(line: string, m: string)
    requires IsComment(line)
    ensures IsTidyLine(line) && ReadLine(line) == Ok(None)
    ensures MarkerLike(m) ==> !Contains(line, m)
  {
    if MarkerLike(m) {
      Differs(line, m, 0, 2);
      OnlyAtTheStart(line, m);
    }
  }

  // ---------- the file as the user's lines with blocks between them ----------

  /** A saved block and the lines that follow it, up to the next block. */
  datatype Section = Section(kind: Kind, block: seq<Assignment>, tail: seq<string>)

  datatype Doc = Doc(head: seq<string>, sections: seq<Section>)

  function SectionLines(s: Section): seq<string> {
    BlockLines(MarkersOf(s.kind), InnerOf(s.kind, s.block)) + s.tail
  }

  function LinesOf(ss: seq<Section>): seq<string> {
    if ss == [] then [] else SectionLines(ss[0]) + LinesOf(ss[1..])
  }

  function DocLines(d: Doc): seq<string> {
    d.head + LinesOf(d.sections)
  }

  function DocText(d: Doc): string {
    Join(DocLines(d), "\n")
  }

  function Other(kind: Kind): Kind {
    if kind.Provider? then Roles else Provider
  }

  /** A value that leaves its block and the other one readable; the block's own BEGIN marker does no harm in it. */
  predicate ValueOk(kind: Kind, v: string) {
    !Contains(v, MarkersOf(kind).finish) && NoMarkerOf(v, MarkersOf(Other(kind)))
  }

  predicate BlockOk(kind: Kind, block: seq<Assignment>) {
    Named(block) && forall i :: 0 <= i < |block| ==> ValueOk(kind, block[i].value)
  }

  predicate GapOk(lines: seq<string>) {
    AllLines(lines) && forall i :: 0 <= i < |lines| ==> MarkerFree(lines[i])
  }

  predicate SectionOk(s: Section) {
    BlockOk(s.kind, s.block) && GapOk(s.tail) && s.tail != []
  }

  predicate Absent(ss: seq<Section>, kind: Kind) {
    forall i :: 0 <= i < |ss| ==> ss[i].kind != kind
  }

  predicate SectionsOk(ss: seq<Section>) {
    && (forall i :: 0 <= i < |ss| ==> SectionOk(ss[i]))
    && (forall i, j :: 0 <= i < j < |ss| ==> ss[i].kind != ss[j].kind)
  }

  predicate DocOk(d: Doc) {
    GapOk(d.head) && SectionsOk(d.sections) && (d.head != [] || d.sections != [])
  }

  // ---------- where markers are ----------

  predicate NoneOf(lines: seq<string>, m: Markers) {
    NoneContains(lines, m.begin) && NoneContains(lines, m.finish)
  }

  lemma NoneOfConcat(a: seq<string>, b: seq<string>, m: Markers)
    ensures NoneOf(a + b, m) <==> NoneOf(a, m) && NoneOf(b, m)
  {
    NoneContainsConcat(a, b, m.begin);
    NoneContainsConcat(a, b, m.finish);
  }

  lemma GapHasNone(lines: seq<string>, kind: Kind)
    requires GapOk(lines)
    ensures NoneOf(lines, MarkersOf(kind))
  {
    hide Contains, MarkersOf;
    forall i | 0 <= i < |lines|
      ensures NoMarkerOf(lines[i], MarkersOf(kind))
    {
      assert MarkerFree(lines[i]);
      assert kind == Provider || kind == Roles;
    }
  }

  lemma {:induction false} PrintedHaveNone(block: seq<Assignment>, m: string)
    requires Named(block) && MarkerLike(m) && forall i :: 0 <= i < |block| ==> !Contains(block[i].value, m)
    ensures NoneContains(PrintLines(block), m)
  {
    hide Contains, IsName, PrintLine, MarkerLike;
    forall i | 0 <= i < |block|
      ensures !Contains(PrintLine(block[i]), m)
    {
      PrintedLineHasNoMarker(block[i], m);
    }
  }

  lemma {:induction false} CommentsHaveNone(kind: Kind, m: string)
    requires MarkerLike(m)
    ensures NoneContains(CommentsOf(kind), m)
  {
    hide Contains, MarkerLike, CommentsOf, IsComment;
    CommentsAreComments(kind, 0);
    forall i | 0 <= i < |CommentsOf(kind)|
      ensures !Contains(CommentsOf(kind)[i], m)
    {
      CommentsAreComments(kind, i);
      CommentIsHarmless(CommentsOf(kind)[i], m);
    }
  }

  /** A printed block holds a marker between its own only if a value does. */
  lemma {:induction false} InnerHolds(kind: Kind, block: seq<Assignment>, m: string)
    requires Named(block) && MarkerLike(m) && forall i :: 0 <= i < |block| ==> !Contains(block[i].value, m)
    ensures NoneContains(InnerOf(kind, block), m)
  {
    hide Contains, IsName, PrintLine, MarkerLike, CommentsOf;
    PrintedHaveNone(block, m);
    CommentsHaveNone(kind, m);
    NoneContainsConcat(CommentsOf(kind), PrintLines(block), m);
  }

  lemma InnerHasNone(kind: Kind, block: seq<Assignment>)
    requires BlockOk(kind, block)
    ensures NoneOf(InnerOf(kind, block), MarkersOf(Other(kind)))
    ensures NoneContains(InnerOf(kind, block), MarkersOf(kind).finish)
  {
    hide Contains, MarkersOf, MarkerLike, IsName, InnerOf;
    MarkersAreApart(kind, kind);
    MarkersAreApart(Other(kind), Other(kind));
    forall i | 0 <= i < |block|
      ensures ValueOk(kind, block[i].value)
    {
    }
    InnerHolds(kind, block, MarkersOf(kind).finish);
    InnerHolds(kind, block, MarkersOf(Other(kind)).begin);
    InnerHolds(kind, block, MarkersOf(Other(kind)).finish);
  }

  /** A section holds no marker of the other block. */
  lemma {:induction false} SectionHasNone(s: Section, kind: Kind)
    requires SectionOk(s) && s.kind != kind
    ensures NoneOf(SectionLines(s), MarkersOf(kind))
  {
    hide Contains, MarkersOf, InnerOf;
    var m, own := MarkersOf(kind), MarkersOf(s.kind);
    var inner := InnerOf(s.kind, s.block);
    MarkersAreApart(s.kind, kind);
    InnerHasNone(s.kind, s.block);
    assert Other(s.kind) == kind;
    GapHasNone(s.tail, kind);
    assert NoneOf([own.begin], m) && NoneOf([own.finish], m);
    NoneOfConcat([own.begin], inner, m);
    NoneOfConcat([own.begin] + inner, [own.finish], m);
    NoneOfConcat(BlockLines(own, inner), s.tail, m);
  }

  lemma {:induction false} SectionsHaveNone(ss: seq<Section>, kind: Kind)
    requires SectionsOk(ss) && Absent(ss, kind)
    ensures NoneOf(LinesOf(ss), MarkersOf(kind))
    decreases |ss|
  {
    hide Contains, MarkersOf, SectionLines, SectionOk;
    if ss != [] {
      SectionHasNone(ss[0], kind);
      SectionsHaveNone(ss[1..], kind);
      NoneOfConcat(SectionLines(ss[0]), LinesOf(ss[1..]), MarkersOf(kind));
    }
  }

  lemma DocHasNone(d: Doc, kind: Kind)
    requires GapOk(d.head) && SectionsOk(d.sections) && Absent(d.sections, kind)
    ensures NoneOf(DocLines(d), MarkersOf(kind))
  {
    hide Contains, MarkersOf, SectionOk, GapOk;
    GapHasNone(d.head, kind);
    SectionsHaveNone(d.sections, kind);
    NoneOfConcat(d.head, LinesOf(d.sections), MarkersOf(kind));
  }

  lemma {:induction false} LinesOfConcat(a: seq<Section>, b: seq<Section>)
    ensures LinesOf(a + b) == LinesOf(a) + LinesOf(b)
    decreases |a|
  {
    hide SectionLines;
    if a == [] {
      assert a + b == b;
    } else {
      assert (a + b)[1..] == a[1..] + b;
      LinesOfConcat(a[1..], b);
    }
  }

  /** A document seen from one of its blocks. */
  lemma {:induction false} AroundSection(head: seq<string>, a: seq<Section>, s: Section, b: seq<Section>)
    ensures DocLines(Doc(head, a + ([s] + b)))
         == DocLines(Doc(head, a)) + (BlockLines(MarkersOf(s.kind), InnerOf(s.kind, s.block)) + (s.tail + LinesOf(b)))
  {
    hide MarkersOf, InnerOf, BlockLines;
    LinesOfConcat(a, [s] + b);
    assert ([s] + b)[1..] == b;
  }

  lemma SplitOk(a: seq<Section>, s: Section, b: seq<Section>)
    requires SectionsOk(a + ([s] + b))
    ensures SectionsOk(a) && SectionOk(s) && SectionsOk(b) && Absent(a, s.kind) && Absent(b, s.kind)
  {
    var ss := a + ([s] + b);
    assert ss[|a|] == s;
    assert forall i :: 0 <= i < |a| ==> ss[i] == a[i];
    assert forall i :: 0 <= i < |b| ==> ss[|a| + 1 + i] == b[i];
  }

  lemma {:induction false} StandsAlone(head: seq<string>, a: seq<Section>, s: Section, b: seq<Section>)
    requires DocOk(Doc(head, a + ([s] + b)))
    ensures BlockStandsAlone(DocLines(Doc(head, a)), MarkersOf(s.kind), InnerOf(s.kind, s.block))
    ensures DocText(Doc(head, a + ([s] + b))) ==
            WithBlock(DocLines(Doc(head, a)), MarkersOf(s.kind), InnerOf(s.kind, s.block), s.tail + LinesOf(b))
    ensures s.tail + LinesOf(b) != []
  {
    hide Contains, MarkersOf, InnerOf, DocLines, GapOk, BlockOk, LinesOf, BlockLines, SectionsOk;
    SplitOk(a, s, b);
    MarkersAreApart(s.kind, s.kind);
    DocHasNone(Doc(head, a), s.kind);
    InnerHasNone(s.kind, s.block);
    AroundSection(head, a, s, b);
  }

  // ---------- what a reader sees ----------

  /** A line without its final carriage returns. */
  function WithoutCr(line: string): string
    decreases |line|
  {
    if line != "" && line[|line| - 1] == '\r' then WithoutCr(line[..|line| - 1]) else line
  }

  function Shown(line: string): seq<string> {
    if IsBlank(line) then [] else [WithoutCr(line)]
  }

  /** The lines of a text that are outside the managed blocks and not blank, in order. */
  function UserLines(content: string): seq<string> {
    Outside(Lines(content), None)
  }

  function Outside(lines: seq<string>, inside: Option<Kind>): seq<string> {
    if lines == [] then []
    else
      match inside
      case Some(kind) => Outside(lines[1..], if lines[0] == MarkersOf(kind).finish then None else inside)
      case None =>
        if lines[0] == MarkersOf(Provider).begin then Outside(lines[1..], Some(Provider))
        else if lines[0] == MarkersOf(Roles).begin then Outside(lines[1..], Some(Roles))
        else Shown(lines[0]) + Outside(lines[1..], None)
  }

  function Kept(lines: seq<string>): seq<string> {
    if lines == [] then [] else Shown(lines[0]) + Kept(lines[1..])
  }

  function KeptTails(ss: seq<Section>): seq<string> {
    if ss == [] then [] else Kept(ss[0].tail) + KeptTails(ss[1..])
  }

  function KeptOf(d: Doc): seq<string> {
    Kept(d.head) + KeptTails(d.sections)
  }

  function SavedIn(ss: seq<Section>, kind: Kind): Option<seq<Assignment>> {
    if ss == [] then None else if ss[0].kind == kind then Some(ss[0].block) else SavedIn(ss[1..], kind)
  }

  lemma {:induction false} KeptConcat(a: seq<string>, b: seq<string>)
    ensures Kept(a + b) == Kept(a) + Kept(b)
    decreases |a|
  {
    hide Shown;
    if a == [] {
      assert a + b == b;
    } else {
      assert (a + b)[1..] == a[1..] + b;
      KeptConcat(a[1..], b);
    }
  }

  lemma {:induction false} KeptTailsConcat(a: seq<Section>, b: seq<Section>)
    ensures KeptTails(a + b) == KeptTails(a) + KeptTails(b)
    decreases |a|
  {
    hide Kept;
    if a == [] {
      assert a + b == b;
    } else {
      assert (a + b)[1..] == a[1..] + b;
      KeptTailsConcat(a[1..], b);
    }
  }

  lemma {:induction false} SavedInConcat(a: seq<Section>, b: seq<Section>, kind: Kind)
    ensures SavedIn(a + b, kind) == if SavedIn(a, kind).Some? then SavedIn(a, kind) else SavedIn(b, kind)
    decreases |a|
  {
    if a == [] {
      assert a + b == b;
    } else {
      assert (a + b)[1..] == a[1..] + b;
      SavedInConcat(a[1..], b, kind);
    }
  }

  lemma {:induction false} AbsentIsNone(ss: seq<Section>, kind: Kind)
    ensures SavedIn(ss, kind) == None <==> Absent(ss, kind)
    decreases |ss|
  {
    if ss != [] && ss[0].kind != kind {
      AbsentIsNone(ss[1..], kind);
      assert forall i :: 1 <= i < |ss| ==> ss[i] == ss[1..][i - 1];
    }
  }

  /** The document around one of its blocks, as a reader sees it. */
  lemma ViewsAround(head: seq<string>, a: seq<Section>, s: Section, b: seq<Section>, kind: Kind)
    requires Absent(a, s.kind)
    ensures KeptOf(Doc(head, a + ([s] + b))) == Kept(head) + KeptTails(a) + (Kept(s.tail) + KeptTails(b))
    ensures SavedIn(a + ([s] + b), kind) ==
            if kind == s.kind then Some(s.block) else if SavedIn(a, kind).Some? then SavedIn(a, kind)
                else SavedIn(b, kind)
  {
    hide Kept;
    KeptTailsConcat(a, [s] + b);
    SavedInConcat(a, [s] + b, kind);
    AbsentIsNone(a, s.kind);
    assert ([s] + b)[1..] == b;
    ConcatAssoc(Kept(head), KeptTails(a), Kept(s.tail) + KeptTails(b));
  }

  // ---------- reading a document ----------

  lemma NotAMarkerLine(line: string, kind: Kind)
    requires MarkerFree(line)
    ensures line != MarkersOf(kind).begin && line != MarkersOf(kind).finish
  {
    hide MarkersOf, IndexOf;
    assert kind == Provider || kind == Roles;
    SelfContained(MarkersOf(kind).begin);
    SelfContained(MarkersOf(kind).finish);
  }

  lemma SelfContained(m: string)
    ensures Contains(m, m)
  {
    assert OccursAt(m, m, 0);
    ContainsIff(m, m);
  }

  lemma {:induction false} OutsideGap(gap: seq<string>, rest: seq<string>)
    requires GapOk(gap)
    ensures Outside(gap + rest, None) == Kept(gap) + Outside(rest, None)
    decreases |gap|
  {
    hide Shown, MarkersOf, MarkerFree;
    if gap == [] {
      assert gap + rest == rest;
    } else {
      var lines := gap + rest;
      NotAMarkerLine(gap[0], Provider);
      NotAMarkerLine(gap[0], Roles);
      assert lines[1..] == gap[1..] + rest && lines[0] == gap[0];
      OutsideGap(gap[1..], rest);
      ConcatAssoc(Shown(gap[0]), Kept(gap[1..]), Outside(rest, None));
    }
  }

  lemma {:induction false} OutsideInner(inner: seq<string>, kind: Kind, rest: seq<string>)
    requires NoneContains(inner, MarkersOf(kind).finish)
    ensures Outside(inner + ([MarkersOf(kind).finish] + rest), Some(kind)) == Outside(rest, None)
    decreases |inner|
  {
    hide Shown, MarkersOf, Contains;
    var f := MarkersOf(kind).finish;
    var lines := inner + ([f] + rest);
    if inner == [] {
      assert lines == [f] + rest && lines[1..] == rest;
    } else {
      SelfContained(f);
      assert lines[0] == inner[0] && lines[1..] == inner[1..] + ([f] + rest);
      OutsideInner(inner[1..], kind, rest);
    }
  }

  lemma OutsideBlock(kind: Kind, block: seq<Assignment>, rest: seq<string>)
    requires BlockOk(kind, block)
    ensures Outside(BlockLines(MarkersOf(kind), InnerOf(kind, block)) + rest, None) == Outside(rest, None)
  {
    hide Shown, MarkersOf, Contains, InnerOf;
    var m := MarkersOf(kind);
    var inner := InnerOf(kind, block);
    var lines := BlockLines(m, inner) + rest;
    InnerHasNone(kind, block);
    OutsideInner(inner, kind, rest);
    assert lines[0] == m.begin && lines[1..] == inner + ([m.finish] + rest);
    MarkersAreApart(Provider, Roles);
    SelfContained(MarkersOf(Provider).begin);
    MarkersAreApart(Roles, Provider);
    SelfContained(MarkersOf(Roles).begin);
  }

  lemma {:induction false} OutsideSections(ss: seq<Section>)
    requires SectionsOk(ss)
    ensures Outside(LinesOf(ss), None) == KeptTails(ss)
    decreases |ss|
  {
    hide Shown, MarkersOf, Contains, InnerOf, BlockLines, Outside, Kept;
    if ss != [] {
      var s, rest := ss[0], LinesOf(ss[1..]);
      OutsideSections(ss[1..]);
      OutsideGap(s.tail, rest);
      OutsideBlock(s.kind, s.block, s.tail + rest);
      ConcatAssoc(BlockLines(MarkersOf(s.kind), InnerOf(s.kind, s.block)), s.tail, rest);
    } else {
      OutsideNothing();
    }
  }

  lemma OutsideNothing()
    ensures Outside([], None) == []
  {
  }

  lemma {:induction false} DocLinesAreLines(d: Doc)
    requires DocOk(d)
    ensures DocLines(d) != [] && AllLines(DocLines(d))
  {
    hide MarkersOf, InnerOf, MarkerFree, IsName;
    LinesOfAreLines(d.sections);
  }

  lemma {:induction false} LinesOfAreLines(ss: seq<Section>)
    requires SectionsOk(ss)
    ensures AllLines(LinesOf(ss)) && (ss != [] ==> LinesOf(ss) != [])
    decreases |ss|
  {
    hide MarkersOf, InnerOf, MarkerFree, IsName, NoNewline;
    if ss != [] {
      LinesOfAreLines(ss[1..]);
      BlockLinesAreLines(ss[0].kind, ss[0].block);
    }
  }

  lemma {:induction false} BlockLinesAreLines(kind: Kind, block: seq<Assignment>)
    requires BlockOk(kind, block)
    ensures AllLines(BlockLines(MarkersOf(kind), InnerOf(kind, block)))
  {
    hide MarkersOf, MarkerFree, IsName, NoNewline, CommentsOf, DropCr, IsComment;
    MarkersAreApart(kind, kind);
    CommentsAreTidy(kind);
    InnerLinesAreTidy(CommentsOf(kind), block);
  }

  lemma {:induction false} CommentsAreTidy(kind: Kind)
    ensures AllTidy(CommentsOf(kind)) && AllComments(CommentsOf(kind))
  {
    hide IsComment, CommentsOf, IsTidyLine, ReadLine;
    var comments := CommentsOf(kind);
    CommentsAreComments(kind, 0);
    forall i | 0 <= i < |comments|
      ensures IsTidyLine(comments[i]) && ReadLine(comments[i]) == Ok(None)
    {
      CommentsAreComments(kind, i);
      CommentIsHarmless(comments[i], "");
    }
  }

  /** The user's lines of a document are the lines between its blocks. */
  lemma {:induction false} UserLinesOfDoc(d: Doc)
    requires DocOk(d)
    ensures UserLines(DocText(d)) == KeptOf(d)
  {
    hide Join, Lines, Outside, Kept, LinesOf, GapOk, SectionsOk, KeptTails;
    DocLinesAreLines(d);
    LinesOfJoin(DocLines(d));
    OutsideGap(d.head, LinesOf(d.sections));
    OutsideSections(d.sections);
  }

  /** Each block of a document is read back as the assignments it was saved with. */
  lemma {:induction false} BlockOfDoc(d: Doc, kind: Kind)
    requires DocOk(d)
    ensures ParseBlock(DocText(d), MarkersOf(kind)) ==
            match SavedIn(d.sections, kind) case None => Ok(None) case Some(block) => Ok(Some(Assigned(map[], block)))
  {
    hide Join, MarkersOf, BlockBody, LinesOf, GapOk, SectionOk, Assigned, ReadLines, SplitAtBreaks;
    if SavedIn(d.sections, kind).None? {
      AbsentIsNone(d.sections, kind);
      DocHasNone(d, kind);
      MarkersAreApart(kind, kind);
      AbsentBlock(DocLines(d), MarkersOf(kind));
    } else {
      var a, s, b := SplitAt(d.sections, kind);
      SectionIsReadBack(d.head, a, s, b);
    }
  }

  lemma SectionIsReadBack(head: seq<string>, a: seq<Section>, s: Section, b: seq<Section>)
    requires DocOk(Doc(head, a + ([s] + b)))
    ensures ParseBlock(DocText(Doc(head, a + ([s] + b))), MarkersOf(s.kind)) == Ok(Some(Assigned(map[], s.block)))
  {
    hide Join, MarkersOf, BlockBody, LinesOf, GapOk, Assigned, ReadLines, SplitAtBreaks, DocLines, CommentsOf;
    hide MarkerFree, IsName;
    hide BlockStandsAlone, WithBlock, Between, SectionsOk, InnerLines, DocText;
    var m := MarkersOf(s.kind);
    StandsAlone(head, a, s, b);
    BodyIsBetween(DocLines(Doc(head, a)), m, InnerOf(s.kind, s.block), s.tail + LinesOf(b));
    SplitOk(a, s, b);
    CommentsAreTidy(s.kind);
    BodyIsReadBack(CommentsOf(s.kind), s.block);
  }

  lemma {:induction false} SplitAt(ss: seq<Section>, kind: Kind) returns (a: seq<Section>, s: Section, b: seq<Section>)
    requires SavedIn(ss, kind).Some?
    ensures ss == a + ([s] + b) && s.kind == kind && s.block == SavedIn(ss, kind).value
    decreases |ss|
  {
    if ss[0].kind == kind {
      a, s, b := [], ss[0], ss[1..];
    } else {
      a, s, b := SplitAt(ss[1..], kind);
      a := [ss[0]] + a;
    }
  }

  // ---------- saves and clears ----------

  datatype Op = Save(kind: Kind, block: seq<Assignment>) | ClearRoles

  /** One save or clear, from the file's content before it to the content after it; None is a missing file. */
  function Step(content: Option<string>, op: Op): Result<Option<string>, EnvError> {
    match op
    case Save(kind, block) =>
      (match Merge(content, BlockOf(kind, block), MarkersOf(kind))
       case Err(e) => Err(e)
       case Ok(next) => Ok(Some(next)))
    case ClearRoles => Remove(content, MarkersOf(Roles))
  }

  function Run(content: Option<string>, ops: seq<Op>): Result<Option<string>, EnvError>
    decreases |ops|
  {
    if ops == [] then Ok(content)
    else
      match Step(content, ops[0])
      case Err(e) => Err(e)
      case Ok(next) => Run(next, ops[1..])
  }

  function TextOf(content: Option<string>): string {
    match content
    case None => ""
    case Some(text) => text
  }

  predicate Represents(content: Option<string>, d: Doc) {
    DocOk(d) && TextOf(content) == DocText(d)
  }

  /** More lines after the last one. */
  function AddLines(d: Doc, extra: seq<string>): Doc {
    if d.sections == [] then Doc(d.head + extra, [])
    else
      var n := |d.sections| - 1;
      var last := d.sections[n];
      Doc(d.head, d.sections[..n] + [last.(tail := last.tail + extra)])
  }

  lemma LastSection(d: Doc) returns (a: seq<Section>, s: Section)
    requires d.sections != []
    ensures d.sections == a + ([s] + [])
    ensures forall extra: seq<string> :: AddLines(d, extra) == Doc(d.head, a + ([s.(tail := s.tail + extra)] + []))
  {
    var n := |d.sections| - 1;
    a, s := d.sections[..n], d.sections[n];
  }

  /** What adding a gap at the end changes: the lines, the user's lines, nothing else. */
  lemma {:induction false} AddLinesAdds(d: Doc, extra: seq<string>, kind: Kind)
    requires DocOk(d) && GapOk(extra)
    ensures DocLines(AddLines(d, extra)) == DocLines(d) + extra && DocOk(AddLines(d, extra))
    ensures KeptOf(AddLines(d, extra)) == KeptOf(d) + Kept(extra)
    ensures SavedIn(AddLines(d, extra).sections, kind) == SavedIn(d.sections, kind)
  {
    hide MarkerFree, NoNewline, Shown, BlockOk;
    if d.sections == [] {
      KeptConcat(d.head, extra);
    } else {
      var a, s := LastSection(d);
      var t := s.(tail := s.tail + extra);
      AddTail(d.head, a, s, extra, kind);
    }
  }

  lemma GapConcat(a: seq<string>, b: seq<string>)
    ensures GapOk(a + b) <==> GapOk(a) && GapOk(b)
  {
    hide MarkerFree, NoNewline;
    assert forall i :: 0 <= i < |a| ==> (a + b)[i] == a[i];
    assert forall i :: 0 <= i < |b| ==> (a + b)[|a| + i] == b[i];
  }

  lemma ReplaceOk(a: seq<Section>, s: Section, b: seq<Section>, t: Section)
    requires SectionsOk(a + ([s] + b)) && t.kind == s.kind && SectionOk(t)
    ensures SectionsOk(a + ([t] + b))
  {
    hide SectionOk;
    var ss, ts := a + ([s] + b), a + ([t] + b);
    assert forall i :: 0 <= i < |ss| && i != |a| ==> ts[i] == ss[i];
    assert ss[|a|] == s && ts[|a|] == t;
  }

  lemma AddTail(head: seq<string>, a: seq<Section>, s: Section, extra: seq<string>, kind: Kind)
    requires DocOk(Doc(head, a + ([s] + []))) && GapOk(extra)
    ensures var t := s.(tail := s.tail + extra);
      var d, e := Doc(head, a + ([s] + [])), Doc(head, a + ([t] + []));
      && DocOk(e) && DocLines(e) == DocLines(d) + extra && KeptOf(e) == KeptOf(d) + Kept(extra)
      && SavedIn(e.sections, kind) == SavedIn(d.sections, kind)
  {
    hide MarkersOf, InnerOf, BlockLines, GapOk, BlockOk, Kept, KeptOf, DocLines, SavedIn;
    var t := s.(tail := s.tail + extra);
    SplitOk(a, s, []);
    GapConcat(s.tail, extra);
    ReplaceOk(a, s, [], t);
    AroundSection(head, a, s, []);
    AroundSection(head, a, t, []);
    ViewsAround(head, a, s, [], kind);
    ViewsAround(head, a, t, [], kind);
    KeptConcat(s.tail, extra);
  }

  /** Two lists of sections that share no block, one after the other. */
  lemma AppendSections(d: Doc, b: seq<Section>, kind: Kind)
    requires DocOk(d) && SectionsOk(b)
    requires forall k: Kind :: SavedIn(d.sections, k).None? || SavedIn(b, k).None?
    ensures var e := Doc(d.head, d.sections + b);
      && DocOk(e) && DocLines(e) == DocLines(d) + LinesOf(b) && KeptOf(e) == KeptOf(d) + KeptTails(b)
      && SavedIn(e.sections, kind) == if SavedIn(b, kind).Some? then SavedIn(b, kind) else SavedIn(d.sections, kind)
  {
    hide GapOk, SectionOk, Kept, SectionLines;
    var ss := d.sections + b;
    forall i, j | 0 <= i < j < |ss|
      ensures ss[i].kind != ss[j].kind
    {
      if i < |d.sections| <= j {
        AbsentIsNone(d.sections, ss[i].kind);
        AbsentIsNone(b, ss[i].kind);
        assert ss[j] == b[j - |d.sections|];
      }
    }
    LinesOfConcat(d.sections, b);
    KeptTailsConcat(d.sections, b);
    SavedInConcat(d.sections, b, kind);
    ConcatAssoc(d.head, LinesOf(d.sections), LinesOf(b));
    ConcatAssoc(Kept(d.head), KeptTails(d.sections), KeptTails(b));
  }

  /** The lines with one carriage return taken from the last of them. */
  function DropEnd(d: Doc): Doc
    requires DocOk(d)
  {
    if d.sections == [] then Doc(DropLastCr(d.head), [])
    else
      var n := |d.sections| - 1;
      assert SectionOk(d.sections[n]);
      Doc(d.head, d.sections[..n] + [d.sections[n].(tail := DropLastCr(d.sections[n].tail))])
  }

  lemma DropCrKeepsFreedom(line: string, m: string)
    requires !Contains(line, m)
    ensures !Contains(DropCr(line), m)
  {
    hide IndexOf;
    ContainsIff(line, m);
    ContainsIff(DropCr(line), m);
    forall p: nat
      ensures !OccursAt(DropCr(line), m, p)
    {
      assert !OccursAt(line, m, p);
      if p + |m| <= |DropCr(line)| {
        OccursLeft(DropCr(line), line[|DropCr(line)|..], m, p);
        assert line == DropCr(line) + line[|DropCr(line)|..];
      }
    }
  }

  lemma DropCrIsShownAlike(line: string)
    ensures Shown(DropCr(line)) == Shown(line)
  {
    BlankMeansAllSpaces(line);
    BlankMeansAllSpaces(DropCr(line));
    if line != "" && line[|line| - 1] == '\r' {
      assert forall i :: 0 <= i < |line| - 1 ==> DropCr(line)[i] == line[i];
    }
  }

  lemma DropLastCrOfGap(gap: seq<string>)
    requires GapOk(gap) && gap != []
    ensures GapOk(DropLastCr(gap)) && Kept(DropLastCr(gap)) == Kept(gap)
  {
    hide MarkersOf, Contains, Shown, DropCr;
    var front, last := gap[..|gap| - 1], gap[|gap| - 1];
    assert gap == front + [last];
    KeptConcat(front, [last]);
    KeptConcat(front, [DropCr(last)]);
    DropCrIsShownAlike(last);
    KeptOne(last);
    KeptOne(DropCr(last));
    GapConcat(front, [last]);
    GapConcat(front, [DropCr(last)]);
    DropCrOfLine(last);
  }

  lemma KeptOne(line: string)
    ensures Kept([line]) == Shown(line)
  {
    assert [line][1..] == [];
  }

  lemma DropCrOfLine(line: string)
    requires GapOk([line])
    ensures GapOk([DropCr(line)])
  {
    hide MarkersOf, Contains;
    assert MarkerFree([line][0]) && NoNewline([line][0]);
    DropCrKeepsFreedom(line, MarkersOf(Provider).begin);
    DropCrKeepsFreedom(line, MarkersOf(Provider).finish);
    DropCrKeepsFreedom(line, MarkersOf(Roles).begin);
    DropCrKeepsFreedom(line, MarkersOf(Roles).finish);
  }

  lemma DropEndDrops(d: Doc, kind: Kind)
    requires DocOk(d)
    ensures DocLines(d) != [] && DocLines(DropEnd(d)) == DropLastCr(DocLines(d)) && DocOk(DropEnd(d))
    ensures KeptOf(DropEnd(d)) == KeptOf(d) && SavedIn(DropEnd(d).sections, kind) == SavedIn(d.sections, kind)
  {
    hide GapOk, Kept, DropCr, KeptOf, DocLines, BlockOk;
    DocLinesAreLines(d);
    if d.sections == [] {
      DropLastCrOfGap(d.head);
      DropEndOfHead(d.head);
    } else {
      var n := |d.sections| - 1;
      assert SectionOk(d.sections[n]);
      var a, s := d.sections[..n], d.sections[n];
      var t := s.(tail := DropLastCr(s.tail));
      assert d == Doc(d.head, a + ([s] + []));
      assert a + [t] == a + ([t] + []);
      DropTail(d.head, a, s, kind);
    }
  }

  lemma DropEndOfHead(head: seq<string>)
    requires head != []
    ensures DocLines(Doc(head, [])) == head && DocLines(Doc(DropLastCr(head), [])) == DropLastCr(head)
    ensures KeptOf(Doc(head, [])) == Kept(head) && KeptOf(Doc(DropLastCr(head), [])) == Kept(DropLastCr(head))
  {
  }

  lemma DropTail(head: seq<string>, a: seq<Section>, s: Section, kind: Kind)
    requires DocOk(Doc(head, a + ([s] + []))) && SectionOk(s)
    ensures var t := s.(tail := DropLastCr(s.tail));
      var d, e := Doc(head, a + ([s] + [])), Doc(head, a + ([t] + []));
      && DocLines(d) != []
      && DocOk(e) && DocLines(e) == DropLastCr(DocLines(d)) && KeptOf(e) == KeptOf(d)
      && SavedIn(e.sections, kind) == SavedIn(d.sections, kind)
  {
    hide MarkersOf, InnerOf, BlockLines, GapOk, BlockOk, Kept, KeptOf, DocLines, SavedIn, DropCr, SectionsOk;
    var t := s.(tail := DropLastCr(s.tail));
    SplitOk(a, s, []);
    DropLastCrOfGap(s.tail);
    ReplaceOk(a, s, [], t);
    AroundSection(head, a, s, []);
    AroundSection(head, a, t, []);
    ViewsAround(head, a, s, [], kind);
    ViewsAround(head, a, t, [], kind);
    assert s.tail + LinesOf([]) == s.tail && t.tail + LinesOf([]) == t.tail;
    DropLastCrOfConcat(DocLines(Doc(head, a)), BlockLines(MarkersOf(s.kind), InnerOf(s.kind, s.block)), s.tail);
  }

  lemma DropLastCrOfConcat(a: seq<string>, b: seq<string>, c: seq<string>)
    requires c != []
    ensures DropLastCr(a + (b + c)) == a + (b + DropLastCr(c))
  {
  }

  lemma EmptyLineIsFree()
    ensures GapOk([""]) && Kept([""]) == []
  {
    hide MarkersOf, MarkerLike;
    MarkersAreApart(Provider, Provider);
    MarkersAreApart(Roles, Roles);
    EmptyHoldsNone(MarkersOf(Provider).begin);
    EmptyHoldsNone(MarkersOf(Provider).finish);
    EmptyHoldsNone(MarkersOf(Roles).begin);
    EmptyHoldsNone(MarkersOf(Roles).finish);
    KeptOne("");
  }

  lemma EmptyHoldsNone(m: string)
    requires MarkerLike(m)
    ensures !Contains("", m)
  {
    Differs("", m, 0, 0);
    OnlyAtTheStart("", m);
  }

  /** The next document stands for the saved text, and only the saved block has changed for a reader. */
  ghost predicate IsSaved(text: string, d: Doc, kind: Kind, block: seq<Assignment>, next: Doc) {
    && DocOk(next) && text == DocText(next) && KeptOf(next) == KeptOf(d)
    && forall k: Kind :: SavedIn(next.sections, k) == if k == kind then Some(block) else SavedIn(d.sections, k)
  }

  lemma SaveReplaces(head: seq<string>, a: seq<Section>, s: Section, b: seq<Section>, block: seq<Assignment>)
    requires DocOk(Doc(head, a + ([s] + b))) && BlockOk(s.kind, block)
    ensures Merge(Some(DocText(Doc(head, a + ([s] + b)))), BlockOf(s.kind, block), MarkersOf(s.kind)).Ok?
    ensures var d, e := Doc(head, a + ([s] + b)), Doc(head, a + ([s.(block := block)] + b));
      IsSaved(Merge(Some(DocText(d)), BlockOf(s.kind, block), MarkersOf(s.kind)).value, d, s.kind, block, e)
  {
    hide Join, MarkersOf, InnerOf, DocLines, BlockStandsAlone, BlockLines, LinesOf, KeptOf, Kept, BlockOk;
    hide GapOk, Merge, SectionsOk, SavedIn, BlockText;
    var t := s.(block := block);
    StandsAlone(head, a, s, b);
    SplitOk(a, s, b);
    ReplaceOk(a, s, b, t);
    MergeReplaces(DocLines(Doc(head, a)), MarkersOf(s.kind), InnerOf(s.kind, s.block), s.tail + LinesOf(b),
        InnerOf(s.kind, block));
    AroundSection(head, a, t, b);
    forall k: Kind
      ensures SavedIn(a + ([t] + b), k) == if k == s.kind then Some(block) else SavedIn(a + ([s] + b), k)
    {
      ViewsAround(head, a, s, b, k);
      ViewsAround(head, a, t, b, k);
    }
    assert KeptOf(Doc(head, a + ([s] + b))) == KeptOf(Doc(head, a + ([t] + b))) by {
      ViewsAround(head, a, s, b, Roles);
      ViewsAround(head, a, t, b, Roles);
    }
  }

  /** A block that is not in the file yet goes behind an empty line at its end. */
  lemma {:induction false} SaveAppends(d: Doc, kind: Kind, block: seq<Assignment>) returns (e: Doc)
    requires DocOk(d) && BlockOk(kind, block) && SavedIn(d.sections, kind).None? && !IsBlank(DocText(d))
    ensures Merge(Some(DocText(d)), BlockOf(kind, block), MarkersOf(kind)).Ok?
    ensures IsSaved(Merge(Some(DocText(d)), BlockOf(kind, block), MarkersOf(kind)).value, d, kind, block, e)
  {
    hide Join, MarkersOf, InnerOf, DocLines, BlockLines, KeptOf, Kept, BlockOk, GapOk, Merge, SectionsOk;
    hide BlockText, IsBlank, AddLines, Contains;
    var lines := DocLines(d);
    AbsentIsNone(d.sections, kind);
    DocHasNone(d, kind);
    DocLinesAreLines(d);
    MarkersAreApart(kind, kind);
    MergeAppends(lines, MarkersOf(kind), InnerOf(kind, block));
    EmptyLineIsFree();
    NothingKept();
    var gap := if lines[|lines| - 1] == "" then [] else [""];
    var d1 := AddLines(d, gap);
    var s := Section(kind, block, [""]);
    forall k: Kind
      ensures SavedIn(d1.sections, k) == SavedIn(d.sections, k)
    {
      AddLinesAdds(d, gap, k);
    }
    AddLinesAdds(d, gap, kind);
    OneSection(s);
    e := Doc(d1.head, d1.sections + [s]);
    forall k: Kind
      ensures SavedIn(e.sections, k) == if k == kind then Some(block) else SavedIn(d.sections, k)
    {
      AppendSections(d1, [s], k);
    }
    AppendSections(d1, [s], kind);
  }

  lemma NothingKept()
    ensures Kept([]) == [] && GapOk([])
  {
  }

  lemma OneSection(s: Section)
    ensures SectionOk(s) ==> SectionsOk([s])
    ensures LinesOf([s]) == SectionLines(s) && KeptTails([s]) == Kept(s.tail)
    ensures forall k: Kind :: SavedIn([s], k) == if k == s.kind then Some(s.block) else None
  {
    hide SectionLines, Kept, SectionOk;
    assert [s][1..] == [];
    assert SectionLines(s) + [] == SectionLines(s);
    assert Kept(s.tail) + [] == Kept(s.tail);
  }

  lemma {:induction false} BlankJoin(lines: seq<string>)
    requires IsBlank(Join(lines, "\n"))
    ensures Kept(lines) == []
    decreases |lines|
  {
    hide IsBlank, WithoutCr;
    if lines != [] {
      var s := Join(lines, "\n");
      BlankMeansAllSpaces(s);
      BlankMeansAllSpaces(lines[0]);
      assert forall i :: 0 <= i < |lines[0]| ==> s[i] == lines[0][i];
      if |lines| > 1 {
        var rest := Join(lines[1..], "\n");
        BlankMeansAllSpaces(rest);
        assert forall i :: 0 <= i < |rest| ==> s[|lines[0]| + 1 + i] == rest[i];
        BlankJoin(lines[1..]);
      }
    }
  }

  /** A blank text holds no block and no line of the user's. */
  lemma BlankDocIsEmpty(d: Doc)
    requires DocOk(d) && IsBlank(DocText(d))
    ensures d.sections == [] && KeptOf(d) == []
  {
    hide IsBlank, MarkersOf, InnerOf, Join, Contains, Kept, LinesOf, BlockStandsAlone, WithBlock, MarkersOk;
    if d.sections != [] {
      assert d.sections == [] + ([d.sections[0]] + d.sections[1..]);
      var s := d.sections[0];
      assert d == Doc(d.head, [] + ([s] + d.sections[1..]));
      StandsAlone(d.head, [], s, d.sections[1..]);
      BlockIsFound(DocLines(Doc(d.head, [])), MarkersOf(s.kind), InnerOf(s.kind, s.block),
          s.tail + LinesOf(d.sections[1..]));
      MarkersAreApart(s.kind, s.kind);
      MarkersFound(DocText(d), MarkersOf(s.kind));
    } else {
      NoSections();
      assert DocLines(d) == d.head;
      BlankJoin(d.head);
      assert [] + KeptTails([]) == [];
    }
  }

  lemma NoSections()
    ensures LinesOf([]) == [] && KeptTails([]) == []
  {
  }

  lemma MarkersFound(content: string, m: Markers)
    requires MarkersOk(m) && IndexOf(content, m.begin).Some?
    ensures !IsBlank(content)
  {
    HashIsNotBlank(content, m.begin);
  }

  /** In an empty file, or where there is none, the block is the whole file. */
  lemma {:induction false} SaveStarts(d: Doc, kind: Kind, block: seq<Assignment>) returns (e: Doc)
    requires DocOk(d) && BlockOk(kind, block) && IsBlank(DocText(d))
    ensures IsSaved(BlockOf(kind, block), d, kind, block, e)
  {
    hide IsBlank, MarkersOf, InnerOf, Join, Kept, GapOk, BlockOk;
    BlankDocIsEmpty(d);
    EmptyLineIsFree();
    NothingKept();
    var s := Section(kind, block, [""]);
    OneSection(s);
    e := Doc([], [s]);
    assert [] + SectionLines(s) == SectionLines(s);
    BlockThenNothing(BlockLines(MarkersOf(kind), InnerOf(kind, block)));
  }

  lemma BlockThenNothing(lines: seq<string>)
    requires lines != []
    ensures Join(lines + [""], "\n") == Join(lines, "\n") + "\n"
  {
    JoinConcat(lines, [""], "\n");
  }

  lemma {:induction false} SaveStep(
      content: Option<string>, d: Doc, kind: Kind, block: seq<Assignment>)
    returns (e: Doc)
    requires Represents(content, d) && BlockOk(kind, block)
    ensures Step(content, Save(kind, block)).Ok?
    ensures IsSaved(TextOf(Step(content, Save(kind, block)).value), d, kind, block, e)
  {
    hide IsBlank, MarkersOf, DocOk, BlockOk, DocText, BlockOf, MergeAt, IsSaved, IndexOf;
    if content.None? {
      assert IsBlank("") by { EmptyIsBlank(); }
      e := SaveStarts(d, kind, block);
    } else if IsBlank(content.value) {
      e := SaveStarts(d, kind, block);
    } else if SavedIn(d.sections, kind).None? {
      e := SaveAppends(d, kind, block);
    } else {
      var a, s, b := SplitAt(d.sections, kind);
      assert d == Doc(d.head, a + ([s] + b));
      SaveReplaces(d.head, a, s, b, block);
      e := Doc(d.head, a + ([s.(block := block)] + b));
    }
  }

  lemma EmptyIsBlank()
    ensures IsBlank("")
  {
  }

  /** The next document stands for the cleared text: one block is gone for a reader, nothing else has changed. */
  ghost predicate IsCleared(text: string, d: Doc, kind: Kind, next: Doc) {
    && DocOk(next) && text == DocText(next) && KeptOf(next) == KeptOf(d)
    && forall k: Kind :: SavedIn(next.sections, k) == if k == kind then None else SavedIn(d.sections, k)
  }

  /** What is left when nothing stands before the block, or only an empty line. */
  lemma ClearFirst(head: seq<string>, a: seq<Section>, s: Section, b: seq<Section>)
    requires DocOk(Doc(head, a + ([s] + b)))
    requires DocLines(Doc(head, a)) == [] || DropLastCr(DocLines(Doc(head, a))) == [""]
    ensures a == [] && DocLines(Doc(s.tail, b)) == s.tail + LinesOf(b)
    ensures IsCleared(DocText(Doc(s.tail, b)), Doc(head, a + ([s] + b)), s.kind, Doc(s.tail, b))
  {
    hide MarkersOf, InnerOf, Join, Kept, DropCr, BlockOk, GapOk, KeptTails;
    SplitOk(a, s, b);
    SectionsTakeLines(a);
    NoSections();
    assert DocLines(Doc(head, a)) == head;
    assert Kept(head) == [] by { KeptOfOne(head); }
    AbsentIsNone(b, s.kind);
    forall k: Kind
      ensures SavedIn(b, k) == if k == s.kind then None else SavedIn(a + ([s] + b), k)
    {
      ViewsAround(head, a, s, b, k);
    }
    ViewsAround(head, a, s, b, s.kind);
    assert [] + [] + (Kept(s.tail) + KeptTails(b)) == Kept(s.tail) + KeptTails(b);
  }

  lemma KeptOfOne(head: seq<string>)
    requires head == [] || DropLastCr(head) == [""]
    ensures Kept(head) == []
  {
    if head != [] {
      assert head == [head[0]];
      assert DropLastCr(head)[0] == DropCr(head[0]);
      KeptOne(head[0]);
      DropCrIsShownAlike(head[0]);
    }
  }

  /** What is left otherwise: both sides, with one empty line between them. */
  lemma {:induction false} ClearLater(head: seq<string>, a: seq<Section>, s: Section, b: seq<Section>) returns (e: Doc)
    requires DocOk(Doc(head, a + ([s] + b)))
    requires DocLines(Doc(head, a)) != [] && DropLastCr(DocLines(Doc(head, a))) != [""]
    ensures DocLines(e) == Removed(DocLines(Doc(head, a)), s.tail + LinesOf(b))
    ensures IsCleared(DocText(e), Doc(head, a + ([s] + b)), s.kind, e)
  {
    hide MarkersOf, InnerOf, Join, Kept, DropCr, BlockOk, GapOk, KeptTails, LinesOf, DocLines, AddLines;
    hide DropEnd, KeptOf, SectionLines, SavedIn, SectionsOk, Absent;
    SplitOk(a, s, b);
    NoLinesMeansEmpty(head, a);
    var d0 := Doc(head, a);
    assert DocOk(d0);
    var post := s.tail + LinesOf(b);
    var gap := if post == [""] then [""] else [""] + s.tail;
    EmptyLineIsFree();
    GapConcat([""], s.tail);
    KeptConcat([""], s.tail);
    var d1 := AddLines(DropEnd(d0), gap);
    e := Doc(d1.head, d1.sections + b);
    LastGap(s.tail, b);
    forall k: Kind
      ensures SavedIn(d1.sections, k) == SavedIn(a, k)
    {
      DropEndDrops(d0, k);
      AddLinesAdds(DropEnd(d0), gap, k);
    }
    DropEndDrops(d0, s.kind);
    AddLinesAdds(DropEnd(d0), gap, s.kind);
    AbsentIsNone(a, s.kind);
    AbsentIsNone(b, s.kind);
    KindsApart(a, s, b);
    forall k: Kind
      ensures SavedIn(e.sections, k) == if k == s.kind then None else SavedIn(a + ([s] + b), k)
    {
      ViewsAround(head, a, s, b, k);
      AppendSections(d1, b, k);
    }
    ViewsAround(head, a, s, b, s.kind);
    AppendSections(d1, b, s.kind);
    ClearedLines(DropLastCr(DocLines(d0)), s.tail, LinesOf(b));
    ClearedKept(head, a, s.tail, b);
  }

  lemma NoLinesMeansEmpty(head: seq<string>, a: seq<Section>)
    requires DocLines(Doc(head, a)) != []
    ensures head != [] || a != []
  {
  }

  lemma LastGap(tail: seq<string>, b: seq<Section>)
    requires tail != [] && SectionsOk(b)
    ensures tail + LinesOf(b) == [""] ==> tail == [""] && b == [] && LinesOf(b) == []
  {
    hide MarkersOf, InnerOf;
    SectionsTakeLines(b);
    NoSections();
    assert (tail + LinesOf(b))[0] == tail[0];
  }

  lemma SectionsTakeLines(ss: seq<Section>)
    ensures ss == [] || |LinesOf(ss)| > 1
  {
    hide MarkersOf, InnerOf;
  }

  lemma KindsApart(a: seq<Section>, s: Section, b: seq<Section>)
    requires SectionsOk(a + ([s] + b))
    ensures forall k: Kind :: SavedIn(a, k).None? || SavedIn(b, k).None?
  {
    hide SectionOk;
    forall k: Kind
      ensures SavedIn(a, k).None? || SavedIn(b, k).None?
    {
      if SavedIn(a, k).Some? {
        var a1, t, a2 := SplitAt(a, k);
        assert (a + ([s] + b))[|a1|] == t;
        assert forall i :: 0 <= i < |b| ==> (a + ([s] + b))[|a| + 1 + i] == b[i];
        AbsentIsNone(b, k);
      }
    }
  }

  lemma ClearedLines(front: seq<string>, tail: seq<string>, rest: seq<string>)
    ensures (front + [""]) + [] == front + [""]
    ensures (front + ([""] + tail)) + rest == front + ([""] + (tail + rest))
  {
  }

  lemma ClearedKept(head: seq<string>, a: seq<Section>, tail: seq<string>, b: seq<Section>)
    ensures KeptOf(Doc(head, a)) == Kept(head) + KeptTails(a)
    ensures KeptOf(Doc(head, a)) + ([] + Kept(tail)) + KeptTails(b) ==
        Kept(head) + KeptTails(a) + (Kept(tail) + KeptTails(b))
  {
    ConcatAssoc(Kept(head) + KeptTails(a), Kept(tail), KeptTails(b));
    assert [] + Kept(tail) == Kept(tail);
  }

  lemma {:induction false} ClearStep(content: Option<string>, d: Doc) returns (e: Doc)
    requires Represents(content, d)
    ensures Step(content, ClearRoles).Ok?
    ensures IsCleared(TextOf(Step(content, ClearRoles).value), d, Roles, e)
  {
    hide MarkersOf, DocOk, RemoveAt, IndexOf, Join, DocLines, LinesOf, IsBlank, Removed, BlockStandsAlone;
    hide GapOk, Remove, WithBlock;
    hide IsCleared, NoneContains;
    if SavedIn(d.sections, Roles).None? {
      AbsentIsNone(d.sections, Roles);
      ClearNothing(content, d);
      e := d;
    } else {
      var a, s, b := SplitAt(d.sections, Roles);
      assert d == Doc(d.head, a + ([s] + b));
      StandsAlone(d.head, a, s, b);
      ContentIsThere(content, d, s.kind);
      var pre, post := DocLines(Doc(d.head, a)), s.tail + LinesOf(b);
      RemoveTakesOut(pre, MarkersOf(Roles), InnerOf(Roles, s.block), post);
      if pre == [] || DropLastCr(pre) == [""] {
        ClearFirst(d.head, a, s, b);
        e := Doc(s.tail, b);
        RemovedIsRest(pre, post);
      } else {
        e := ClearLater(d.head, a, s, b);
      }
    }
  }

  lemma RemovedIsRest(pre: seq<string>, post: seq<string>)
    requires pre == [] || DropLastCr(pre) == [""]
    ensures Removed(pre, post) == post
  {
  }

  lemma {:induction false} ClearNothing(content: Option<string>, d: Doc)
    requires Represents(content, d) && Absent(d.sections, Roles)
    ensures Step(content, ClearRoles) == Ok(content) && IsCleared(TextOf(content), d, Roles, d)
  {
    hide MarkersOf, RemoveAt, IndexOf, Join, DocLines, LinesOf, IsBlank, GapOk, SectionsOk, Contains, KeptOf;
    AbsentIsNone(d.sections, Roles);
    MarkersAreApart(Roles, Roles);
    DocHasNone(d, Roles);
    AbsentBlock(DocLines(d), MarkersOf(Roles));
  }

  lemma ContentIsThere(content: Option<string>, d: Doc, kind: Kind)
    requires Represents(content, d) && SavedIn(d.sections, kind).Some?
    ensures content == Some(DocText(d))
  {
    hide MarkersOf, Join, DocLines, LinesOf, IsBlank, GapOk;
    EmptyIsBlank();
    if content.None? {
      BlankDocIsEmpty(d);
    }
  }

  // ---------- whole runs ----------

  /** The assignments last saved in a block by a run, unless it was cleared since. */
  function LastSaved(before: Option<seq<Assignment>>, ops: seq<Op>, kind: Kind): Option<seq<Assignment>>
    decreases |ops|
  {
    if ops == [] then before
    else
      match ops[0]
      case Save(k, block) => LastSaved(if k == kind then Some(block) else before, ops[1..], kind)
      case ClearRoles => LastSaved(if kind == Roles then None else before, ops[1..], kind)
  }

  predicate OpOk(op: Op) {
    op.Save? ==> BlockOk(op.kind, op.block)
  }

  lemma {:induction false} RunKeepsDoc(content: Option<string>, d: Doc, ops: seq<Op>) returns (e: Doc)
    requires Represents(content, d) && forall i :: 0 <= i < |ops| ==> OpOk(ops[i])
    ensures Run(content, ops).Ok? && Represents(Run(content, ops).value, e) && KeptOf(e) == KeptOf(d)
    ensures forall k: Kind :: SavedIn(e.sections, k) == LastSaved(SavedIn(d.sections, k), ops, k)
    decreases |ops|
  {
    hide DocOk, BlockOk, KeptOf, DocText, Step;
    if ops == [] {
      e := d;
    } else {
      assert OpOk(ops[0]);
      var next: Doc;
      match ops[0] {
        case Save(kind, block) => next := SaveStep(content, d, kind, block);
        case ClearRoles => next := ClearStep(content, d);
      }
      e := RunKeepsDoc(Step(content, ops[0]).value, next, ops[1..]);
    }
  }

  /** A file no block was ever saved in: it holds no marker text. */
  predicate IsUnmanaged(content: Option<string>) {
    MarkerFree(TextOf(content))
  }

  lemma UnmanagedDoc(content: Option<string>)
    requires IsUnmanaged(content)
    ensures Represents(content, Doc(Lines(TextOf(content)), []))
  {
    hide MarkersOf, Contains, Join;
    var lines := Lines(TextOf(content));
    LinesHoldNone(lines, MarkersOf(Provider).begin);
    LinesHoldNone(lines, MarkersOf(Provider).finish);
    LinesHoldNone(lines, MarkersOf(Roles).begin);
    LinesHoldNone(lines, MarkersOf(Roles).finish);
    forall i | 0 <= i < |lines|
      ensures MarkerFree(lines[i])
    {
    }
    assert lines + [] == lines;
  }

  function Meaning(saved: Option<seq<Assignment>>): Option<Env> {
    match saved
    case None => None
    case Some(block) => Some(Assigned(map[], block))
  }

  /**
   * Over every run of saves and clears from a file without markers, with values free of marker text:
   * no step is rejected, each block is read back as the assignments last saved in it, and the user's
   * own lines are all still there, in order.
   */
  lemma {:induction false} RunsAreReadBack(content: Option<string>, ops: seq<Op>, kind: Kind)
    requires IsUnmanaged(content) && forall i :: 0 <= i < |ops| ==> OpOk(ops[i])
    ensures Run(content, ops).Ok?
    ensures ParseBlock(TextOf(Run(content, ops).value), MarkersOf(kind)) == Ok(Meaning(LastSaved(None, ops, kind)))
    ensures UserLines(TextOf(Run(content, ops).value)) == UserLines(TextOf(content))
  {
    hide DocOk, BlockOk, KeptOf, DocText, Run, UserLines, ParseBlock, MarkersOf, Assigned, IsUnmanaged;
    UnmanagedDoc(content);
    var d := Doc(Lines(TextOf(content)), []);
    var e := RunKeepsDoc(content, d, ops);
    BlockOfDoc(e, kind);
    UserLinesOfDoc(d);
    UserLinesOfDoc(e);
  }
}
