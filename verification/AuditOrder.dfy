/** Audit entries, their order (time stamp, then id), and the sorting and cutting done with it. */
module AuditOrder {
  import opened Text

  /** `details` stands for the fields that neither order nor identify an entry. */
  datatype Entry = Entry(id: string, recordedAt: string, details: string)

  /** The order of texts, shared by localeCompare and SQLite's ORDER BY; any strict total order will do. */
  type TextOrder = (string, string) -> bool

  ghost predicate StrictTotal(lt: TextOrder) {
    && (forall a, b :: lt(a, b) ==> !lt(b, a) && a != b)
    && (forall a, b :: a == b || lt(a, b) || lt(b, a))
    && (forall a, b, c :: lt(a, b) && lt(b, c) ==> lt(a, c))
  }

  predicate Before(lt: TextOrder, a: Entry, b: Entry) {
    lt(a.recordedAt, b.recordedAt) || (a.recordedAt == b.recordedAt && lt(a.id, b.id))
  }

  lemma BeforeIsAnOrder(lt: TextOrder, a: Entry, b: Entry)
    requires StrictTotal(lt)
    ensures !(Before(lt, a, b) && Before(lt, b, a))
    ensures a.id != b.id ==> Before(lt, a, b) || Before(lt, b, a)
  {
    if a.recordedAt != b.recordedAt {
      assert lt(a.recordedAt, b.recordedAt) || lt(b.recordedAt, a.recordedAt);
    } else if a.id != b.id {
      assert lt(a.id, b.id) || lt(b.id, a.id);
    }
  }

  lemma BeforeIsTransitive(lt: TextOrder, a: Entry, b: Entry, c: Entry)
    requires StrictTotal(lt) && Before(lt, a, b) && Before(lt, b, c)
    ensures Before(lt, a, c)
  {
  }

  // ---------- sorting ----------

  /** Puts an entry behind everything it is not before: sorting by it is stable. */
  function Insert(lt: TextOrder, e: Entry, s: seq<Entry>): seq<Entry> {
    if s == [] then [e]
    else if Before(lt, e, s[0]) then [e] + s
    else [s[0]] + Insert(lt, e, s[1..])
  }

  function Sort(lt: TextOrder, s: seq<Entry>): seq<Entry> {
    if s == [] then [] else Insert(lt, s[|s| - 1], Sort(lt, s[..|s| - 1]))
  }

  predicate AllBefore(lt: TextOrder, e: Entry, s: seq<Entry>) {
    forall x :: x in s ==> Before(lt, e, x)
  }

  predicate Sorted(lt: TextOrder, s: seq<Entry>) {
    s == [] || (AllBefore(lt, s[0], s[1..]) && Sorted(lt, s[1..]))
  }

  predicate HasId(s: seq<Entry>, id: string) {
    exists e :: e in s && e.id == id
  }

  predicate DistinctIds(s: seq<Entry>) {
    s == [] || (!HasId(s[..|s| - 1], s[|s| - 1].id) && DistinctIds(s[..|s| - 1]))
  }

  lemma {:induction false} InsertMembers(lt: TextOrder, e: Entry, s: seq<Entry>)
    ensures forall x :: x in Insert(lt, e, s) <==> x == e || x in s
    ensures multiset(Insert(lt, e, s)) == multiset(s) + multiset{e}
    decreases |s|
  {
    if s != [] && !Before(lt, e, s[0]) {
      InsertMembers(lt, e, s[1..]);
      assert s == [s[0]] + s[1..];
    }
  }

  lemma {:induction false} SortMembers(lt: TextOrder, s: seq<Entry>)
    ensures forall x :: x in Sort(lt, s) <==> x in s
    ensures multiset(Sort(lt, s)) == multiset(s)
    ensures |Sort(lt, s)| == |s|
    decreases |s|
  {
    if s != [] {
      var front, last := s[..|s| - 1], s[|s| - 1];
      SortMembers(lt, front);
      InsertMembers(lt, last, Sort(lt, front));
      InsertLength(lt, last, Sort(lt, front));
      assert s == front + [last];
    }
  }

  lemma {:induction false} InsertLength(lt: TextOrder, e: Entry, s: seq<Entry>)
    ensures |Insert(lt, e, s)| == |s| + 1
    decreases |s|
  {
    if s != [] && !Before(lt, e, s[0]) {
      InsertLength(lt, e, s[1..]);
    }
  }

  lemma BeforeHeadIsBeforeAll(lt: TextOrder, e: Entry, s: seq<Entry>)
    requires StrictTotal(lt) && s != [] && Sorted(lt, s) && Before(lt, e, s[0])
    ensures AllBefore(lt, e, s)
  {
    assert s == [s[0]] + s[1..];
  }

  lemma {:induction false} InsertKeepsSorted(lt: TextOrder, e: Entry, s: seq<Entry>)
    requires StrictTotal(lt) && Sorted(lt, s) && !HasId(s, e.id)
    ensures Sorted(lt, Insert(lt, e, s))
    decreases |s|
  {
    if s != [] {
      assert s[0] in s;
      BeforeIsAnOrder(lt, e, s[0]);
      if Before(lt, e, s[0]) {
        BeforeHeadIsBeforeAll(lt, e, s);
        assert ([e] + s)[1..] == s;
      } else {
        InsertKeepsSorted(lt, e, s[1..]);
        InsertMembers(lt, e, s[1..]);
        assert ([s[0]] + Insert(lt, e, s[1..]))[1..] == Insert(lt, e, s[1..]);
      }
    }
  }

  /** Entries with distinct ids come out strictly ordered. */
  lemma {:induction false} SortSorts(lt: TextOrder, s: seq<Entry>)
    requires StrictTotal(lt) && DistinctIds(s)
    ensures Sorted(lt, Sort(lt, s))
    decreases |s|
  {
    if s != [] {
      SortSorts(lt, s[..|s| - 1]);
      SortMembers(lt, s[..|s| - 1]);
      InsertKeepsSorted(lt, s[|s| - 1], Sort(lt, s[..|s| - 1]));
    }
  }

  lemma {:induction false} InsertFirst(lt: TextOrder, e: Entry, s: seq<Entry>)
    requires AllBefore(lt, e, s)
    ensures Insert(lt, e, s) == [e] + s
  {
    if s != [] {
      assert s[0] in s;
    }
  }

  lemma {:induction false} InsertLast(lt: TextOrder, e: Entry, s: seq<Entry>)
    requires StrictTotal(lt) && forall x :: x in s ==> Before(lt, x, e)
    ensures Insert(lt, e, s) == s + [e]
    decreases |s|
  {
    if s != [] {
      assert s[0] in s;
      BeforeIsAnOrder(lt, s[0], e);
      InsertLast(lt, e, s[1..]);
      ConcatAssoc([s[0]], s[1..], [e]);
      assert s == [s[0]] + s[1..];
    }
  }

  lemma {:induction false} SortedConcat(lt: TextOrder, a: seq<Entry>, b: seq<Entry>)
    ensures Sorted(lt, a + b) <==>
            Sorted(lt, a) && Sorted(lt, b) && forall x, y :: x in a && y in b ==> Before(lt, x, y)
    decreases |a|
  {
    if a == [] {
      assert a + b == b;
    } else {
      assert (a + b)[0] == a[0] && (a + b)[1..] == a[1..] + b;
      SortedConcat(lt, a[1..], b);
      assert forall x :: x in a <==> x == a[0] || x in a[1..];
      assert forall x :: x in a[1..] + b <==> x in a[1..] || x in b;
    }
  }

  lemma {:induction false} SortOfSorted(lt: TextOrder, s: seq<Entry>)
    requires StrictTotal(lt) && Sorted(lt, s)
    ensures Sort(lt, s) == s
    decreases |s|
  {
    if s != [] {
      var front, last := s[..|s| - 1], s[|s| - 1];
      assert s == front + [last];
      SortedConcat(lt, front, [last]);
      assert last in [last];
      SortOfSorted(lt, front);
      InsertLast(lt, last, front);
    }
  }

  // ---------- cutting to the greatest entries ----------

  function LastK(s: seq<Entry>, k: nat): (r: seq<Entry>)
    ensures |r| == if |s| <= k then |s| else k
  {
    if |s| <= k then s else s[|s| - k..]
  }

  /** The part LastK cuts off. */
  function Dropped(s: seq<Entry>, k: nat): seq<Entry> {
    s[..|s| - |LastK(s, k)|]
  }

  lemma LastKOfConcat(a: seq<Entry>, b: seq<Entry>, k: nat)
    ensures |b| >= k ==> LastK(a + b, k) == LastK(b, k)
  {
  }

  lemma SplitLastK(s: seq<Entry>, k: nat)
    ensures s == Dropped(s, k) + LastK(s, k)
  {
  }

  lemma {:induction false} InsertInFront(lt: TextOrder, e: Entry, a: seq<Entry>, b: seq<Entry>)
    requires exists x :: x in a && Before(lt, e, x)
    ensures Insert(lt, e, a + b) == Insert(lt, e, a) + b
    decreases |a|
  {
    assert (a + b)[0] == a[0] && (a + b)[1..] == a[1..] + b;
    if Before(lt, e, a[0]) {
      ConcatAssoc([e], a, b);
    } else {
      var x :| x in a && Before(lt, e, x);
      assert x in a[1..];
      InsertInFront(lt, e, a[1..], b);
      ConcatAssoc([a[0]], Insert(lt, e, a[1..]), b);
    }
  }

  lemma {:induction false} InsertBehind(lt: TextOrder, e: Entry, a: seq<Entry>, b: seq<Entry>)
    requires forall x :: x in a ==> !Before(lt, e, x)
    ensures Insert(lt, e, a + b) == a + Insert(lt, e, b)
    decreases |a|
  {
    if a == [] {
      assert a + b == b;
      assert a + Insert(lt, e, b) == Insert(lt, e, b);
    } else {
      assert a[0] in a;
      assert (a + b)[0] == a[0] && (a + b)[1..] == a[1..] + b;
      InsertBehind(lt, e, a[1..], b);
      ConcatAssoc([a[0]], a[1..], Insert(lt, e, b));
      assert a == [a[0]] + a[1..];
    }
  }

  /** Cutting before an insertion is harmless if one cuts again after it. */
  lemma {:induction false} CutInsertCut(lt: TextOrder, e: Entry, s: seq<Entry>, k: nat)
    requires StrictTotal(lt) && k > 0 && Sorted(lt, s)
    ensures LastK(Insert(lt, e, LastK(s, k)), k) == LastK(Insert(lt, e, s), k)
  {
    var a, kept := Dropped(s, k), LastK(s, k);
    SplitLastK(s, k);
    InsertLength(lt, e, kept);
    if |s| > k {
      SortedConcat(lt, a, kept);
      if x :| x in a && Before(lt, e, x) {
        InsertInFront(lt, e, a, kept);
        AllBeforeKept(lt, e, x, a, kept);
        InsertFirst(lt, e, kept);
        LastKOfConcat([e], kept, k);
        LastKOfConcat(Insert(lt, e, a), kept, k);
      } else {
        InsertBehind(lt, e, a, kept);
        LastKOfConcat(a, Insert(lt, e, kept), k);
      }
    }
  }

  lemma AllBeforeKept(lt: TextOrder, e: Entry, x: Entry, a: seq<Entry>, kept: seq<Entry>)
    requires StrictTotal(lt) && x in a && Before(lt, e, x)
    requires forall p, q :: p in a && q in kept ==> Before(lt, p, q)
    ensures AllBefore(lt, e, kept)
  {
    forall y | y in kept
      ensures Before(lt, e, y)
    {
      BeforeIsTransitive(lt, e, x, y);
    }
  }

  /** What cutting keeps is at the top: everything dropped is before everything kept. */
  lemma {:induction false} KeptAreGreatest(lt: TextOrder, history: seq<Entry>, k: nat)
    requires StrictTotal(lt) && DistinctIds(history)
    ensures var kept := LastK(Sort(lt, history), k);
      && |kept| == (if |history| <= k then |history| else k)
      && Sorted(lt, kept)
      && (forall e :: e in kept ==> e in history)
      && (forall e, g :: e in history && e !in kept && g in kept ==> Before(lt, e, g))
  {
    var s := Sort(lt, history);
    SortSorts(lt, history);
    SortMembers(lt, history);
    var a, kept := Dropped(s, k), LastK(s, k);
    SplitLastK(s, k);
    SortedConcat(lt, a, kept);
    assert forall e :: e in s <==> e in a || e in kept;
  }

  // ---------- what a reader of a list sees ----------

  /** Each entry has an earlier time stamp than those behind it, or the same one and a lower id. */
  predicate Chronological(lt: TextOrder, s: seq<Entry>) {
    forall i, j :: 0 <= i < j < |s| ==>
      lt(s[i].recordedAt, s[j].recordedAt) || (s[i].recordedAt == s[j].recordedAt && lt(s[i].id, s[j].id))
  }

  /** The `k` latest entries of a history, or all of them, in order of time; whatever is not there is earlier. */
  predicate AreLatest(lt: TextOrder, list: seq<Entry>, history: seq<Entry>, k: int) {
    && |list| == Least(k, |history|)
    && Chronological(lt, list)
    && (forall e :: e in list ==> e in history)
    && (forall e :: e in history && e !in list ==> Chronological(lt, [e] + list))
  }

  lemma {:induction false} SortedIsChronological(lt: TextOrder, s: seq<Entry>)
    requires Sorted(lt, s)
    ensures Chronological(lt, s)
    decreases |s|
  {
    if s != [] {
      SortedIsChronological(lt, s[1..]);
      forall i, j | 0 <= i < j < |s|
        ensures Before(lt, s[i], s[j])
      {
        assert s[j] == s[1..][j - 1] && s[j] in s[1..];
        if i > 0 {
          assert s[i] == s[1..][i - 1];
        }
      }
    }
  }

  lemma EarlierInFront(lt: TextOrder, e: Entry, list: seq<Entry>)
    requires Chronological(lt, list) && forall x :: x in list ==> Before(lt, e, x)
    ensures Chronological(lt, [e] + list)
  {
    forall j | 0 <= j < |list|
      ensures Before(lt, e, list[j])
    {
      assert list[j] in list;
    }
  }

  /** Sorting and cutting gives the latest entries. */
  lemma {:induction false} CutIsLatest(lt: TextOrder, history: seq<Entry>, k: nat)
    requires StrictTotal(lt) && DistinctIds(history)
    ensures AreLatest(lt, LastK(Sort(lt, history), k), history, k)
  {
    hide Before, StrictTotal, Sort, Chronological;
    var kept := LastK(Sort(lt, history), k);
    KeptAreGreatest(lt, history, k);
    SortedIsChronological(lt, kept);
    forall e | e in history && e !in kept
      ensures Chronological(lt, [e] + kept)
    {
      EarlierInFront(lt, e, kept);
    }
  }

  // ---------- entries that no order tells apart ----------

  /** Nothing stands behind something it is before. */
  predicate InOrder(lt: TextOrder, s: seq<Entry>) {
    s == [] || (NoneBefore(lt, s[1..], s[0]) && InOrder(lt, s[1..]))
  }

  predicate NoneBefore(lt: TextOrder, s: seq<Entry>, e: Entry) {
    forall x :: x in s ==> !Before(lt, x, e)
  }

  predicate HasKey(e: Entry, id: string, at: string) {
    e.id == id && e.recordedAt == at
  }

  /** The entries with one id and one time stamp. */
  function OfKey(s: seq<Entry>, id: string, at: string): seq<Entry> {
    if s == [] then [] else (if HasKey(s[0], id, at) then [s[0]] else []) + OfKey(s[1..], id, at)
  }

  lemma {:induction false} NoneOfKey(s: seq<Entry>, id: string, at: string)
    requires forall x :: x in s ==> !HasKey(x, id, at)
    ensures OfKey(s, id, at) == []
    decreases |s|
  {
    if s != [] {
      assert s[0] in s && s == [s[0]] + s[1..];
      NoneOfKey(s[1..], id, at);
    }
  }

  lemma {:induction false} OfKeyConcat(a: seq<Entry>, b: seq<Entry>, id: string, at: string)
    ensures OfKey(a + b, id, at) == OfKey(a, id, at) + OfKey(b, id, at)
    decreases |a|
  {
    if a == [] {
      assert a + b == b;
    } else {
      assert (a + b)[0] == a[0] && (a + b)[1..] == a[1..] + b;
      OfKeyConcat(a[1..], b, id, at);
    }
  }

  lemma LeastIsInFront(lt: TextOrder, e: Entry, s: seq<Entry>)
    requires StrictTotal(lt) && InOrder(lt, s) && s != [] && Before(lt, e, s[0])
    ensures NoneBefore(lt, s, e) && forall x :: x in s ==> !HasKey(x, e.id, e.recordedAt)
  {
    forall x | x in s
      ensures !Before(lt, x, e) && !HasKey(x, e.id, e.recordedAt)
    {
      BeforeIsAnOrder(lt, e, s[0]);
      assert x == s[0] || x in s[1..];
      if Before(lt, x, e) {
        BeforeIsTransitive(lt, x, e, s[0]);
      }
    }
  }

  lemma {:induction false} InsertKeepsOrder(lt: TextOrder, e: Entry, s: seq<Entry>)
    requires StrictTotal(lt) && InOrder(lt, s)
    ensures InOrder(lt, Insert(lt, e, s))
    decreases |s|
  {
    hide StrictTotal, Before;
    if s != [] {
      if Before(lt, e, s[0]) {
        LeastIsInFront(lt, e, s);
        assert ([e] + s)[1..] == s;
      } else {
        InsertKeepsOrder(lt, e, s[1..]);
        InsertMembers(lt, e, s[1..]);
        assert ([s[0]] + Insert(lt, e, s[1..]))[1..] == Insert(lt, e, s[1..]);
      }
    }
  }

  lemma {:induction false} InsertIsStable(lt: TextOrder, e: Entry, s: seq<Entry>, id: string, at: string)
    requires StrictTotal(lt) && InOrder(lt, s)
    ensures OfKey(Insert(lt, e, s), id, at) == OfKey(s, id, at) + OfKey([e], id, at)
    decreases |s|
  {
    hide StrictTotal, Before;
    var one := OfKey([e], id, at);
    assert [e][1..] == [];
    if s == [] {
      assert OfKey(s, id, at) + one == one;
    } else if Before(lt, e, s[0]) {
      LeastIsInFront(lt, e, s);
      OfKeyConcat([e], s, id, at);
      if HasKey(e, id, at) {
        NoneOfKey(s, id, at);
      }
    } else {
      InsertIsStable(lt, e, s[1..], id, at);
      var first := if HasKey(s[0], id, at) then [s[0]] else [];
      assert ([s[0]] + Insert(lt, e, s[1..]))[1..] == Insert(lt, e, s[1..]);
      ConcatAssoc(first, OfKey(s[1..], id, at), one);
    }
  }

  /** Sorting leaves nothing out of order, and keeps the order of entries with one id and one time stamp. */
  lemma {:induction false} SortIsStable(lt: TextOrder, s: seq<Entry>, id: string, at: string)
    requires StrictTotal(lt)
    ensures InOrder(lt, Sort(lt, s)) && OfKey(Sort(lt, s), id, at) == OfKey(s, id, at)
    decreases |s|
  {
    hide StrictTotal, Before;
    if s != [] {
      var front, last := s[..|s| - 1], s[|s| - 1];
      SortIsStable(lt, front, id, at);
      InsertKeepsOrder(lt, last, Sort(lt, front));
      InsertIsStable(lt, last, Sort(lt, front), id, at);
      OfKeyConcat(front, [last], id, at);
      assert s == front + [last];
    }
  }

  // ---------- filtering by id ----------

  function Ids(s: seq<Entry>): set<string> {
    set e | e in s :: e.id
  }

  function Filter(ids: set<string>, s: seq<Entry>): seq<Entry> {
    if s == [] then []
    else Filter(ids, s[..|s| - 1]) + if s[|s| - 1].id in ids then [s[|s| - 1]] else []
  }

  lemma {:induction false} FilterConcat(ids: set<string>, a: seq<Entry>, b: seq<Entry>)
    ensures Filter(ids, a + b) == Filter(ids, a) + Filter(ids, b)
    decreases |b|
  {
    if b == [] {
      assert a + b == a;
      assert Filter(ids, a) + [] == Filter(ids, a);
    } else {
      var front, last := b[..|b| - 1], if b[|b| - 1].id in ids then [b[|b| - 1]] else [];
      assert (a + b)[..|a + b| - 1] == a + front;
      FilterConcat(ids, a, front);
      ConcatAssoc(Filter(ids, a), Filter(ids, front), last);
    }
  }

  lemma {:induction false} FilterMembers(ids: set<string>, s: seq<Entry>)
    ensures forall x :: x in Filter(ids, s) <==> x in s && x.id in ids
    decreases |s|
  {
    if s != [] {
      FilterMembers(ids, s[..|s| - 1]);
      assert s == s[..|s| - 1] + [s[|s| - 1]];
    }
  }

  lemma {:induction false} FilterAll(ids: set<string>, s: seq<Entry>)
    requires forall e :: e in s ==> e.id in ids
    ensures Filter(ids, s) == s
    decreases |s|
  {
    if s != [] {
      FilterAll(ids, s[..|s| - 1]);
      assert s == s[..|s| - 1] + [s[|s| - 1]];
    }
  }

  lemma FilterNone(ids: set<string>, s: seq<Entry>)
    ensures Filter(ids, s) == [] <==> forall e :: e in s ==> e.id !in ids
  {
    FilterMembers(ids, s);
    if Filter(ids, s) != [] {
      assert Filter(ids, s)[0] in Filter(ids, s);
    }
  }

  lemma FilterHead(ids: set<string>, head: Entry, rest: seq<Entry>)
    ensures Filter(ids, [head] + rest) == (if head.id in ids then [head] else []) + Filter(ids, rest)
  {
    FilterConcat(ids, [head], rest);
    assert [head][..0] == [];
  }

  lemma {:induction false} FilterInsert(lt: TextOrder, ids: set<string>, e: Entry, s: seq<Entry>)
    requires StrictTotal(lt) && Sorted(lt, s)
    ensures Filter(ids, Insert(lt, e, s)) ==
            if e.id in ids then Insert(lt, e, Filter(ids, s)) else Filter(ids, s)
    decreases |s|
  {
    if s == [] {
      FilterHead(ids, e, []);
      assert [e] + [] == [e];
    } else if Before(lt, e, s[0]) {
      FilterHead(ids, e, s);
      BeforeHeadIsBeforeAll(lt, e, s);
      FilterMembers(ids, s);
      InsertFirst(lt, e, Filter(ids, s));
    } else {
      assert s == [s[0]] + s[1..];
      FilterHead(ids, s[0], s[1..]);
      FilterHead(ids, s[0], Insert(lt, e, s[1..]));
      FilterInsert(lt, ids, e, s[1..]);
      InsertBehind(lt, e, if s[0].id in ids then [s[0]] else [], Filter(ids, s[1..]));
    }
  }

  lemma {:induction false} SortOfFilter(lt: TextOrder, ids: set<string>, s: seq<Entry>)
    requires StrictTotal(lt) && DistinctIds(s)
    ensures Sort(lt, Filter(ids, s)) == Filter(ids, Sort(lt, s))
    decreases |s|
  {
    if s != [] {
      var front, last := s[..|s| - 1], s[|s| - 1];
      SortSorts(lt, front);
      SortOfFilter(lt, ids, front);
      FilterInsert(lt, ids, last, Sort(lt, front));
      if last.id in ids {
        var f := Filter(ids, front) + [last];
        assert f[..|f| - 1] == Filter(ids, front);
      } else {
        assert Filter(ids, front) + [] == Filter(ids, front);
      }
    }
  }

  lemma {:induction false} DistinctMembers(s: seq<Entry>)
    requires DistinctIds(s)
    ensures forall x, y :: x in s && y in s && x.id == y.id ==> x == y
    decreases |s|
  {
    if s != [] {
      DistinctMembers(s[..|s| - 1]);
      assert s == s[..|s| - 1] + [s[|s| - 1]];
    }
  }

  /** Filtering a sorted list by the ids of its end gives its end. */
  lemma FilterByTail(lt: TextOrder, s: seq<Entry>, k: nat)
    requires StrictTotal(lt) && Sorted(lt, s)
    requires forall x, y :: x in s && y in s && x.id == y.id ==> x == y
    ensures Filter(Ids(LastK(s, k)), s) == LastK(s, k)
  {
    var a, kept := Dropped(s, k), LastK(s, k);
    SplitLastK(s, k);
    SortedConcat(lt, a, kept);
    forall x, y | x in a && y in kept
      ensures x.id != y.id
    {
      BeforeIsAnOrder(lt, x, y);
    }
    FilterConcat(Ids(kept), a, kept);
    FilterNone(Ids(kept), a);
    FilterAll(Ids(kept), kept);
    assert [] + kept == kept;
  }

  lemma {:induction false} FilterKeepsDistinct(ids: set<string>, s: seq<Entry>)
    requires DistinctIds(s)
    ensures DistinctIds(Filter(ids, s))
    decreases |s|
  {
    if s != [] {
      var front, last := s[..|s| - 1], s[|s| - 1];
      FilterKeepsDistinct(ids, front);
      FilterMembers(ids, front);
      assert Filter(ids, front) + [] == Filter(ids, front);
      var f := Filter(ids, front) + [last];
      assert f[..|f| - 1] == Filter(ids, front);
    }
  }
}
