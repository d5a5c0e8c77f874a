/** Strings as the daemon and the command line use them: search, white space, lines. */
module Text {

  /** The greatest integer that a JavaScript number counts exactly. */
  const MAX_SAFE_INTEGER := 9007199254740991

  datatype Option<+T> = None | Some(value: T)

  datatype Result<+T, +E> = Ok(value: T) | Err(error: E)

  function Least(a: int, b: int): int {
    if a < b then a else b
  }

  lemma ConcatAssoc<T>(a: seq<T>, b: seq<T>, c: seq<T>)
    ensures a + (b + c) == (a + b) + c
  {
  }

  // ---------- searching ----------

  predicate OccursAt(s: string, m: string, p: nat) {
    p + |m| <= |s| && forall k :: 0 <= k < |m| ==> s[p + k] == m[k]
  }

  predicate Contains(s: string, m: string) {
    IndexOf(s, m).Some?
  }

  /** The first position of `m` in `s`. */
  function IndexOf(s: string, m: string): (r: Option<nat>)
    ensures r.Some? ==> OccursAt(s, m, r.value)
  {
    IndexFrom(s, m, 0)
  }

  function IndexFrom(s: string, m: string, from: nat): (r: Option<nat>)
    ensures r.Some? ==> OccursAt(s, m, r.value)
    decreases |s| + 1 - from
  {
    if from + |m| > |s| then None
    else if OccursAt(s, m, from) then Some(from)
    else IndexFrom(s, m, from + 1)
  }

  /** No occurrence is missed: none when the search fails, none before the position it gives. */
  lemma IndexOfIsFirst(s: string, m: string)
    ensures IndexOf(s, m).None? ==> forall p: nat :: !OccursAt(s, m, p)
    ensures IndexOf(s, m).Some? ==> forall p: nat :: p < IndexOf(s, m).value ==> !OccursAt(s, m, p)
  {
    IndexFromIsFirst(s, m, 0);
  }

  lemma {:induction false} IndexFromIsFirst(s: string, m: string, from: nat)
    ensures IndexFrom(s, m, from).None? ==> forall p: nat :: from <= p ==> !OccursAt(s, m, p)
    ensures IndexFrom(s, m, from).Some? ==>
      forall p: nat :: from <= p < IndexFrom(s, m, from).value ==> !OccursAt(s, m, p)
    decreases |s| + 1 - from
  {
    if from + |m| <= |s| && !OccursAt(s, m, from) {
      IndexFromIsFirst(s, m, from + 1);
    }
  }

  /** A first occurrence is unique, so naming one determines the search result. */
  lemma IndexIs(s: string, m: string, i: nat)
    requires OccursAt(s, m, i)
    requires forall p: nat :: p < i ==> !OccursAt(s, m, p)
    ensures IndexOf(s, m) == Some(i)
  {
    IndexOfIsFirst(s, m);
    var r := IndexOf(s, m);
    assert !(r.value < i) && !(i < r.value);
  }

  lemma ContainsIff(s: string, m: string)
    ensures Contains(s, m) <==> exists p: nat :: OccursAt(s, m, p)
  {
    IndexOfIsFirst(s, m);
  }

  lemma OccursChar(s: string, m: string, p: nat, k: nat)
    requires OccursAt(s, m, p) && k < |m|
    ensures s[p + k] == m[k]
  {
    assert s[p..p + |m|][k] == s[p + k];
  }

  lemma Differs(s: string, m: string, p: nat, k: nat)
    requires k < |m|
    requires p + k < |s| ==> s[p + k] != m[k]
    ensures !OccursAt(s, m, p)
  {
  }

  // ---------- white space ----------

  /** What String.prototype.trim removes. */
  predicate IsSpace(c: char) {
    || '\t' <= c <= '\r'
    || c == ' '
    || c == '\U{00A0}'
    || c == '\U{1680}'
    || '\U{2000}' <= c <= '\U{200A}'
    || c == '\U{2028}'
    || c == '\U{2029}'
    || c == '\U{202F}'
    || c == '\U{205F}'
    || c == '\U{3000}'
    || c == '\U{FEFF}'
  }

  function TrimStart(s: string): (r: string)
    ensures |r| <= |s|
    ensures r == "" || !IsSpace(r[0])
    ensures s != "" && !IsSpace(s[|s| - 1]) ==> r != "" && r[|r| - 1] == s[|s| - 1]
    ensures s == "" || !IsSpace(s[0]) ==> r == s
  {
    if s != "" && IsSpace(s[0]) then TrimStart(s[1..]) else s
  }

  function TrimEnd(s: string): (r: string)
    ensures |r| <= |s| && r == s[..|r|]
    ensures r == "" || !IsSpace(r[|r| - 1])
    ensures s == "" || !IsSpace(s[|s| - 1]) ==> r == s
  {
    if s != "" && IsSpace(s[|s| - 1]) then TrimEnd(s[..|s| - 1]) else s
  }

  /** Neither end of the result is a space; a text with no space at either end is left alone. */
  function Trim(s: string): (r: string)
    ensures r == "" || (!IsSpace(r[0]) && !IsSpace(r[|r| - 1]))
    ensures s == "" || (!IsSpace(s[0]) && !IsSpace(s[|s| - 1])) ==> r == s
  {
    TrimEnd(TrimStart(s))
  }

  predicate IsBlank(s: string) {
    Trim(s) == ""
  }

  predicate AllSpaces(s: string) {
    forall i :: 0 <= i < |s| ==> IsSpace(s[i])
  }

  lemma {:induction false} TrimStartTakesSpaces(s: string) returns (a: string)
    ensures s == a + TrimStart(s) && AllSpaces(a)
    decreases |s|
  {
    hide IsSpace;
    a := "";
    if s != "" && IsSpace(s[0]) {
      a := TrimStartTakesSpaces(s[1..]);
      a := [s[0]] + a;
    }
  }

  lemma {:induction false} TrimEndTakesSpaces(s: string) returns (b: string)
    ensures s == TrimEnd(s) + b && AllSpaces(b)
    decreases |s|
  {
    hide IsSpace;
    b := "";
    if s != "" && IsSpace(s[|s| - 1]) {
      b := TrimEndTakesSpaces(s[..|s| - 1]);
      b := b + [s[|s| - 1]];
    }
  }

  /** Trimming takes spaces away from both ends, all of them and nothing else. */
  lemma {:induction false} TrimmingAnswers(s: string) returns (a: string, b: string)
    ensures s == a + Trim(s) + b && AllSpaces(a) && AllSpaces(b)
    ensures Trim(s) == "" || (!IsSpace(Trim(s)[0]) && !IsSpace(Trim(s)[|Trim(s)| - 1]))
  {
    hide IsSpace, TrimStart, TrimEnd;
    a := TrimStartTakesSpaces(s);
    b := TrimEndTakesSpaces(TrimStart(s));
  }

  lemma TrimIsIdempotent(s: string)
    ensures Trim(Trim(s)) == Trim(s)
  {
  }

  /** Trimming leaves nothing exactly when every character is a space. */
  lemma {:induction false} BlankMeansAllSpaces(s: string)
    ensures IsBlank(s) <==> forall i :: 0 <= i < |s| ==> IsSpace(s[i])
  {
    TrimStartBlank(s);
    var t := TrimStart(s);
    if t != "" {
      TrimEndKeepsFirst(t);
    }
  }

  lemma {:induction false} TrimStartBlank(s: string)
    ensures TrimStart(s) == "" <==> forall i :: 0 <= i < |s| ==> IsSpace(s[i])
    decreases |s|
  {
    if s != "" && IsSpace(s[0]) {
      TrimStartBlank(s[1..]);
      assert forall i :: 0 < i < |s| ==> s[i] == s[1..][i - 1];
    }
  }

  lemma {:induction false} TrimEndKeepsFirst(s: string)
    requires s != "" && !IsSpace(s[0])
    ensures TrimEnd(s) != ""
    decreases |s|
  {
    if IsSpace(s[|s| - 1]) {
      TrimEndKeepsFirst(s[..|s| - 1]);
    }
  }

  // ---------- lines ----------

  predicate NoNewline(s: string) {
    forall i :: 0 <= i < |s| ==> s[i] != '\n'
  }

  function Join(lines: seq<string>, sep: string): string {
    if lines == [] then ""
    else if |lines| == 1 then lines[0]
    else lines[0] + sep + Join(lines[1..], sep)
  }

  /** Splits at every line feed; the pieces hold no line feed and joining them gives the text back. */
  function Lines(s: string): (r: seq<string>)
    ensures r != []
    ensures forall i :: 0 <= i < |r| ==> NoNewline(r[i])
    ensures Join(r, "\n") == s
  {
    IndexOfIsFirst(s, "\n");
    match IndexOf(s, "\n")
    case None =>
      assert forall i :: 0 <= i < |s| ==> (s[i] == '\n' ==> OccursAt(s, "\n", i));
      [s]
    case Some(i) =>
      assert forall k :: 0 <= k < i ==> (s[k] == '\n' ==> OccursAt(s, "\n", k));
      assert s == s[..i] + "\n" + s[i + 1..];
      var rest := Lines(s[i + 1..]);
      assert ([s[..i]] + rest)[1..] == rest;
      [s[..i]] + rest
  }

  lemma NoNewlineToFind(s: string)
    requires NoNewline(s)
    ensures IndexOf(s, "\n") == None
  {
    forall p: nat
      ensures !OccursAt(s, "\n", p)
    {
      Differs(s, "\n", p, 0);
    }
  }

  lemma FirstNewline(head: string, rest: string)
    requires NoNewline(head)
    ensures IndexOf(head + "\n" + rest, "\n") == Some(|head|)
  {
    var s := head + "\n" + rest;
    forall p: nat | p < |head|
      ensures !OccursAt(s, "\n", p)
    {
      assert s[p] == head[p];
      Differs(s, "\n", p, 0);
    }
    IndexIs(s, "\n", |head|);
  }

  lemma LinesStep(head: string, rest: string)
    requires NoNewline(head)
    ensures Lines(head + "\n" + rest) == [head] + Lines(rest)
  {
    var s := head + "\n" + rest;
    FirstNewline(head, rest);
    assert s[..|head|] == head && s[|head| + 1..] == rest;
  }

  /** Joining is one to one on line lists: splitting undoes it. */
  lemma {:induction false} LinesOfJoin(lines: seq<string>)
    requires lines != []
    requires forall i :: 0 <= i < |lines| ==> NoNewline(lines[i])
    ensures Lines(Join(lines, "\n")) == lines
    decreases |lines|
  {
    if |lines| == 1 {
      NoNewlineToFind(lines[0]);
    } else {
      LinesStep(lines[0], Join(lines[1..], "\n"));
      LinesOfJoin(lines[1..]);
    }
  }

  lemma {:induction false} JoinConcat(a: seq<string>, b: seq<string>, sep: string)
    requires a != [] && b != []
    ensures Join(a + b, sep) == Join(a, sep) + sep + Join(b, sep)
    decreases |a|
  {
    if |a| == 1 {
      assert (a + b)[1..] == b;
    } else {
      assert (a + b)[1..] == a[1..] + b;
      JoinConcat(a[1..], b, sep);
      assert Join(a + b, sep) == a[0] + sep + (Join(a[1..], sep) + sep + Join(b, sep));
    }
  }
}
