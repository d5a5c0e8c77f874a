/** The operation audit log in its three forms: in memory, in a JSON file, and in a SQLite table. */
module AuditLog {
  import opened Text
  import opened AuditOrder

  datatype AuditError = InvalidLimit | DuplicateId

  const DEFAULT_LIMIT: nat := 100
  const MAX_LIMIT: nat := 1000

  function NormalizeLimit(limit: Option<int>): (r: Result<nat, AuditError>)
    ensures r.Ok? ==> 1 <= r.value <= MAX_LIMIT
    ensures r.Ok? ==> r.value == Least(if limit.Some? then limit.value else 100, 1000)
    ensures r.Err? <==> limit.Some? && !(0 < limit.value <= MAX_SAFE_INTEGER)
  {
    match limit
    case None => Ok(DEFAULT_LIMIT)
    case Some(n) =>
      if n > MAX_SAFE_INTEGER || n <= 0 then Err(InvalidLimit)
      else Ok(if n < MAX_LIMIT then n else MAX_LIMIT)
  }

  /** The constructor normalises the retention bound to a positive integer or to none. */
  predicate ValidMax(max: Option<nat>) {
    max.Some? ==> max.value > 0
  }

  function Keep(max: Option<nat>, s: seq<Entry>): seq<Entry> {
    match max
    case None => s
    case Some(k) => LastK(s, k)
  }

  function Listed(lt: TextOrder, entries: seq<Entry>, limit: Option<int>): Result<seq<Entry>, AuditError> {
    match NormalizeLimit(limit)
    case Err(e) => Err(e)
    case Ok(n) => Ok(LastK(Sort(lt, entries), n))
  }

  // ---------- in memory ----------

  /** Pruning keeps the entries whose ids are among those of the greatest ones. */
  function Pruned(lt: TextOrder, entries: seq<Entry>, max: Option<nat>): seq<Entry> {
    if max.None? || |entries| <= max.value then entries
    else Filter(Ids(LastK(Sort(lt, entries), max.value)), entries)
  }

  /** Splicing one entry out of the unvisited end, or leaving it, is one step of the filter. */
  lemma SpliceStep(ids: set<string>, s: seq<Entry>, i: nat)
    requires i < |s|
    ensures var whole := s[..i + 1] + Filter(ids, s[i + 1..]);
      && whole[i] == s[i]
      && s[..i] + Filter(ids, s[i..]) == if s[i].id in ids then whole else whole[..i] + whole[i + 1..]
  {
    var tail := Filter(ids, s[i + 1..]);
    assert s[i..] == [s[i]] + s[i + 1..];
    FilterHead(ids, s[i], s[i + 1..]);
    assert s[..i + 1] == s[..i] + [s[i]];
    ConcatAssoc(s[..i], [s[i]], tail);
    assert (s[..i + 1] + tail)[i + 1..] == tail;
    assert [] + tail == tail;
  }

  class InMemoryAuditLog {
    const lt: TextOrder
    const maxEntries: Option<nat>
    var entries: seq<Entry>

    constructor (lt: TextOrder, maxEntries: Option<nat>)
      requires ValidMax(maxEntries)
      ensures this.lt == lt && this.maxEntries == maxEntries && entries == []
    {
      this.lt, this.maxEntries, this.entries := lt, maxEntries, [];
    }

    method Record(entry: Entry) returns (r: Entry)
      modifies this
      ensures entries == Pruned(lt, old(entries) + [entry], maxEntries)
      ensures r == entry
    {
      entries := entries + [entry];
      Prune();
      r := entry;
    }

    /** Walks the array from its end and splices out what is not retained. */
    method Prune()
      modifies this
      ensures entries == Pruned(lt, old(entries), maxEntries)
    {
      if maxEntries.None? || |entries| <= maxEntries.value {
        return;
      }
      ghost var before := entries;
      var retained := Ids(LastK(Sort(lt, entries), maxEntries.value));
      var index := |entries|;
      assert before[index..] == [] && before == before[..index] + [];
      while index > 0
        invariant 0 <= index <= |before|
        invariant entries == before[..index] + Filter(retained, before[index..])
      {
        index := index - 1;
        SpliceStep(retained, before, index);
        var entry := entries[index];
        if entry.id !in retained {
          entries := entries[..index] + entries[index + 1..];
        }
      }
      assert before[0..] == before && before[..0] == [];
      assert [] + Filter(retained, before) == Filter(retained, before);
    }

    method List(limit: Option<int>) returns (r: Result<seq<Entry>, AuditError>)
      ensures r == Listed(lt, entries, limit)
    {
      var n := NormalizeLimit(limit);
      if n.Err? {
        return Err(n.error);
      }
      var sorted := Sort(lt, entries);
      var from := if |sorted| - n.value > 0 then |sorted| - n.value else 0;
      return Ok(sorted[from..]);
    }
  }

  lemma PrunedKeepsGreatest(lt: TextOrder, entries: seq<Entry>, max: Option<nat>)
    requires StrictTotal(lt) && DistinctIds(entries)
    ensures DistinctIds(Pruned(lt, entries, max))
    ensures forall x :: x in Pruned(lt, entries, max) ==> x in entries
    ensures Sort(lt, Pruned(lt, entries, max)) == Keep(max, Sort(lt, entries))
  {
    SortMembers(lt, entries);
    if max.Some? && |entries| > max.value {
      var ids := Ids(LastK(Sort(lt, entries), max.value));
      FilterKeepsDistinct(ids, entries);
      FilterMembers(ids, entries);
      SortSorts(lt, entries);
      SortOfFilter(lt, ids, entries);
      DistinctMembers(entries);
      FilterByTail(lt, Sort(lt, entries), max.value);
    }
  }

  function MemoryAfter(lt: TextOrder, max: Option<nat>, history: seq<Entry>): seq<Entry> {
    if history == [] then []
    else Pruned(lt, MemoryAfter(lt, max, history[..|history| - 1]) + [history[|history| - 1]], max)
  }

  /** One more record on a log that holds the greatest entries so far leaves the greatest of all. */
  lemma {:induction false} RecordKeepsGreatest(
      lt: TextOrder, max: Option<nat>, entries: seq<Entry>, history: seq<Entry>, e: Entry)
    requires StrictTotal(lt) && ValidMax(max) && DistinctIds(history + [e])
    requires DistinctIds(entries) && forall x :: x in entries ==> x in history
    requires Sort(lt, entries) == Keep(max, Sort(lt, history))
    ensures var after := Pruned(lt, entries + [e], max);
      && DistinctIds(after)
      && (forall x :: x in after ==> x in history + [e])
      && Sort(lt, after) == Keep(max, Sort(lt, history + [e]))
  {
    assert (history + [e])[..|history|] == history;
    assert (entries + [e])[..|entries|] == entries;
    PrunedKeepsGreatest(lt, entries + [e], max);
    SortSorts(lt, history);
    if max.Some? {
      CutInsertCut(lt, e, Sort(lt, history), max.value);
    }
  }

  /** After any records with distinct ids the log holds exactly the greatest entries of the history. */
  lemma {:induction false} MemoryHoldsGreatest(lt: TextOrder, max: Option<nat>, history: seq<Entry>)
    requires StrictTotal(lt) && ValidMax(max) && DistinctIds(history)
    ensures var entries := MemoryAfter(lt, max, history);
      && DistinctIds(entries)
      && (forall x :: x in entries ==> x in history)
      && Sort(lt, entries) == Keep(max, Sort(lt, history))
    decreases |history|
  {
    if history != [] {
      var front, last := history[..|history| - 1], history[|history| - 1];
      MemoryHoldsGreatest(lt, max, front);
      assert history == front + [last];
      RecordKeepsGreatest(lt, max, MemoryAfter(lt, max, front), front, last);
    }
  }

  // ---------- repeated ids ----------

  /** Pruning reaches its bound exactly when no dropped entry shares its id with a kept one. */
  lemma {:induction false} PruneReachesItsBound(lt: TextOrder, entries: seq<Entry>, k: nat)
    requires |entries| > k
    ensures var sorted := Sort(lt, entries);
      |Pruned(lt, entries, Some(k))| == k <==>
      forall x, y :: x in Dropped(sorted, k) && y in LastK(sorted, k) ==> x.id != y.id
  {
    var sorted := Sort(lt, entries);
    SortMembers(lt, entries);
    var dropped, kept := Dropped(sorted, k), LastK(sorted, k);
    var ids := Ids(kept);
    FilterCounts(lt, ids, entries);
    SplitLastK(sorted, k);
    FilterConcat(ids, dropped, kept);
    FilterAll(ids, kept);
    FilterNone(ids, dropped);
  }

  lemma {:induction false} FilterCounts(lt: TextOrder, ids: set<string>, s: seq<Entry>)
    ensures |Filter(ids, Sort(lt, s))| == |Filter(ids, s)|
    decreases |s|
  {
    if s != [] {
      FilterCounts(lt, ids, s[..|s| - 1]);
      FilterCountsInsert(lt, ids, s[|s| - 1], Sort(lt, s[..|s| - 1]));
    }
  }

  lemma {:induction false} FilterCountsInsert(lt: TextOrder, ids: set<string>, e: Entry, s: seq<Entry>)
    ensures |Filter(ids, Insert(lt, e, s))| == |Filter(ids, s)| + if e.id in ids then 1 else 0
    decreases |s|
  {
    if s == [] || Before(lt, e, s[0]) {
      FilterHead(ids, e, s);
      assert [e] + s == Insert(lt, e, s);
    } else {
      FilterCountsInsert(lt, ids, e, s[1..]);
      FilterHead(ids, s[0], Insert(lt, e, s[1..]));
      FilterHead(ids, s[0], s[1..]);
      assert s == [s[0]] + s[1..];
    }
  }

  /** The in-memory form accepts a repeated id: two entries with one id both outlive a bound of one. */
  lemma {:induction false} RepeatedIdsExceedTheBound(lt: TextOrder, x: Entry, y: Entry)
    requires x.id == y.id
    ensures MemoryAfter(lt, Some(1), [x, y]) == [x, y]
  {
    MemoryStep(lt, Some(1), [], x);
    MemoryStep(lt, Some(1), [x], y);
    assert [] + [x] == [x] && [x] + [y] == [x, y];
    SameIdSurvives(lt, [x, y], 1, x.id);
  }

  lemma SameIdSurvives(lt: TextOrder, s: seq<Entry>, k: nat, id: string)
    requires 0 < k < |s| && forall e :: e in s ==> e.id == id
    ensures Pruned(lt, s, Some(k)) == s
  {
    var kept := LastK(Sort(lt, s), k);
    SortMembers(lt, s);
    SplitLastK(Sort(lt, s), k);
    assert kept[0] in kept && kept[0] in Sort(lt, s);
    FilterAll(Ids(kept), s);
  }

  lemma MemoryStep(lt: TextOrder, max: Option<nat>, history: seq<Entry>, e: Entry)
    ensures MemoryAfter(lt, max, history + [e]) == Pruned(lt, MemoryAfter(lt, max, history) + [e], max)
  {
    assert (history + [e])[..|history|] == history;
  }

  /** A prune that drops an entry whose id a kept one has, so that it stays after all. */
  ghost predicate DropsATwin(lt: TextOrder, entries: seq<Entry>, k: nat) {
    var sorted := Sort(lt, entries);
    |entries| > k && exists x, y :: x in Dropped(sorted, k) && y in LastK(sorted, k) && x.id == y.id
  }

  /** One more record stays within the bound exactly when its prune drops no entry with the id of a kept one. */
  lemma {:induction false} RecordStaysWithinIff(lt: TextOrder, k: nat, entries: seq<Entry>, e: Entry)
    ensures |Pruned(lt, entries + [e], Some(k))| <= k <==> !DropsATwin(lt, entries + [e], k)
  {
    hide Sort, Filter, LastK, Dropped;
    if |entries| + 1 > k {
      PruneReachesItsBound(lt, entries + [e], k);
      PruneKeepsTheBound(lt, entries + [e], k);
    }
  }

  lemma PruneKeepsTheBound(lt: TextOrder, entries: seq<Entry>, k: nat)
    requires |entries| > k
    ensures |Pruned(lt, entries, Some(k))| >= k
  {
    var sorted := Sort(lt, entries);
    SortMembers(lt, entries);
    var dropped, kept := Dropped(sorted, k), LastK(sorted, k);
    FilterCounts(lt, Ids(kept), entries);
    SplitLastK(sorted, k);
    FilterConcat(Ids(kept), dropped, kept);
    FilterAll(Ids(kept), kept);
  }

  predicate AlwaysWithin(lt: TextOrder, k: nat, history: seq<Entry>) {
    history != [] ==>
      AlwaysWithin(lt, k, history[..|history| - 1]) && |MemoryAfter(lt, Some(k), history)| <= k
  }

  ghost predicate NeverDropsATwin(lt: TextOrder, k: nat, history: seq<Entry>) {
    history != [] ==>
      var front, e := history[..|history| - 1], history[|history| - 1];
      NeverDropsATwin(lt, k, front) && !DropsATwin(lt, MemoryAfter(lt, Some(k), front) + [e], k)
  }

  /** Over any history, with ids repeated or not, the log is within its bound throughout exactly in that case. */
  lemma {:induction false} LogStaysWithinIff(lt: TextOrder, k: nat, history: seq<Entry>)
    ensures AlwaysWithin(lt, k, history) <==> NeverDropsATwin(lt, k, history)
    decreases |history|
  {
    hide DropsATwin, Pruned;
    if history != [] {
      var front, e := history[..|history| - 1], history[|history| - 1];
      LogStaysWithinIff(lt, k, front);
      RecordStaysWithinIff(lt, k, MemoryAfter(lt, Some(k), front), e);
    }
  }

  // ---------- in a JSON file ----------

  class AuditFile {
    var events: Option<seq<Entry>>

    constructor ()
      ensures events == None
    {
      events := None;
    }
  }

  /** A log's entries and the file behind it. */
  datatype JsonState = JsonState(entries: seq<Entry>, file: Option<seq<Entry>>)

  function JsonRecord(lt: TextOrder, max: Option<nat>, s: JsonState, e: Entry): Result<JsonState, AuditError> {
    if exists x :: x in s.entries && x.id == e.id then Err(DuplicateId)
    else
      var entries := Pruned(lt, s.entries + [e], max);
      Ok(JsonState(entries, Some(Sort(lt, entries))))
  }

  function JsonOpen(lt: TextOrder, max: Option<nat>, file: Option<seq<Entry>>): Result<JsonState, AuditError> {
    match file
    case None => Ok(JsonState([], None))
    case Some(events) =>
      if !DistinctIds(events) then Err(DuplicateId)
      else
        var entries := Pruned(lt, events, max);
        Ok(JsonState(entries, if |entries| != |events| then Some(Sort(lt, entries)) else file))
  }

  class JsonFileAuditLog {
    const lt: TextOrder
    const maxEntries: Option<nat>
    const file: AuditFile
    var entries: seq<Entry>

    ghost function State(): JsonState
      reads this, file
    {
      JsonState(entries, file.events)
    }

    constructor (lt: TextOrder, maxEntries: Option<nat>, file: AuditFile)
      requires ValidMax(maxEntries) && JsonOpen(lt, maxEntries, file.events).Ok?
      modifies file
      ensures this.lt == lt && this.maxEntries == maxEntries && this.file == file
      ensures Ok(State()) == JsonOpen(lt, maxEntries, old(file.events))
    {
      this.lt, this.maxEntries, this.file := lt, maxEntries, file;
      this.entries := [];
      new;
      if file.events.Some? {
        var events := file.events.value;
        entries := Pruned(lt, events, maxEntries);
        if |entries| != |events| {
          Persist();
        }
      }
    }

    method Persist()
      modifies file
      ensures file.events == Some(Sort(lt, entries))
    {
      file.events := Some(Sort(lt, entries));
    }

    method Record(entry: Entry) returns (r: Result<Entry, AuditError>)
      modifies this, file
      ensures r.Ok? ==> Ok(State()) == JsonRecord(lt, maxEntries, old(State()), entry) && r.value == entry
      ensures r.Err? ==> JsonRecord(lt, maxEntries, old(State()), entry) == Err(r.error) && State() == old(State())
    {
      if exists candidate :: candidate in entries && candidate.id == entry.id {
        return Err(DuplicateId);
      }
      entries := Pruned(lt, entries + [entry], maxEntries);
      Persist();
      return Ok(entry);
    }

    method List(limit: Option<int>) returns (r: Result<seq<Entry>, AuditError>)
      ensures r == Listed(lt, entries, limit)
    {
      r := Listed(lt, entries, limit);
    }
  }

  /** A run of the JSON form: records, with daemon restarts in between. */
  datatype JsonOp = Records(entry: Entry) | Restarts

  function Recorded(ops: seq<JsonOp>): seq<Entry> {
    if ops == [] then []
    else
      var last := ops[|ops| - 1];
      Recorded(ops[..|ops| - 1]) + if last.Records? then [last.entry] else []
  }

  function JsonAfter(lt: TextOrder, max: Option<nat>, ops: seq<JsonOp>): Result<JsonState, AuditError> {
    if ops == [] then JsonOpen(lt, max, None)
    else
      match JsonAfter(lt, max, ops[..|ops| - 1])
      case Err(e) => Err(e)
      case Ok(s) =>
        match ops[|ops| - 1]
        case Records(e) => JsonRecord(lt, max, s, e)
        case Restarts => JsonOpen(lt, max, s.file)
  }

  /** The file form holds the greatest entries of a history, in memory and on disk. */
  ghost predicate JsonHolds(lt: TextOrder, max: Option<nat>, s: JsonState, history: seq<Entry>) {
    && DistinctIds(s.entries)
    && (forall x :: x in s.entries ==> x in history)
    && Sort(lt, s.entries) == Keep(max, Sort(lt, history))
    && (if s.file.None? then s.entries == [] else s.file == Some(Sort(lt, s.entries)))
  }

  lemma JsonRecordHolds(lt: TextOrder, max: Option<nat>, s: JsonState, history: seq<Entry>, e: Entry)
    requires StrictTotal(lt) && ValidMax(max) && DistinctIds(history + [e]) && JsonHolds(lt, max, s, history)
    ensures JsonRecord(lt, max, s, e).Ok? && JsonHolds(lt, max, JsonRecord(lt, max, s, e).value, history + [e])
  {
    assert (history + [e])[..|history|] == history;
    RecordKeepsGreatest(lt, max, s.entries, history, e);
  }

  lemma JsonRestartHolds(lt: TextOrder, max: Option<nat>, s: JsonState, history: seq<Entry>)
    requires StrictTotal(lt) && JsonHolds(lt, max, s, history)
    ensures JsonOpen(lt, max, s.file).Ok? && JsonHolds(lt, max, JsonOpen(lt, max, s.file).value, history)
  {
    ReopeningIsNeutral(lt, max, s, history);
  }

  /** Restarts lose nothing: the file form ends with the same greatest entries, and no record is refused. */
  lemma {:induction false} JsonHoldsGreatest(lt: TextOrder, max: Option<nat>, ops: seq<JsonOp>) returns (s: JsonState)
    requires StrictTotal(lt) && ValidMax(max) && DistinctIds(Recorded(ops))
    ensures JsonAfter(lt, max, ops) == Ok(s) && JsonHolds(lt, max, s, Recorded(ops))
    decreases |ops|
  {
    if ops == [] {
      s := JsonState([], None);
    } else {
      var front, last := ops[..|ops| - 1], ops[|ops| - 1];
      if last.Records? {
        assert (Recorded(front) + [last.entry])[..|Recorded(front)|] == Recorded(front);
        s := JsonHoldsGreatest(lt, max, front);
        JsonRecordHolds(lt, max, s, Recorded(front), last.entry);
      } else {
        assert Recorded(front) + [] == Recorded(front);
        s := JsonHoldsGreatest(lt, max, front);
        JsonRestartHolds(lt, max, s, Recorded(front));
      }
      s := JsonAfter(lt, max, ops).value;
    }
  }

  lemma ReopeningIsNeutral(lt: TextOrder, max: Option<nat>, s: JsonState, history: seq<Entry>)
    requires StrictTotal(lt) && DistinctIds(s.entries)
    requires Sort(lt, s.entries) == Keep(max, Sort(lt, history))
    requires if s.file.None? then s.entries == [] else s.file == Some(Sort(lt, s.entries))
    ensures JsonOpen(lt, max, s.file) == Ok(JsonState(Sort(lt, s.entries), s.file))
    ensures DistinctIds(Sort(lt, s.entries)) && Sort(lt, Sort(lt, s.entries)) == Sort(lt, s.entries)
    ensures forall x :: x in Sort(lt, s.entries) <==> x in s.entries
  {
    SortMembers(lt, s.entries);
    SortSorts(lt, s.entries);
    SortOfSorted(lt, Sort(lt, s.entries));
    DistinctMembers(s.entries);
    SortedIsDistinct(lt, Sort(lt, s.entries));
  }

  lemma {:induction false} SortedIsDistinct(lt: TextOrder, s: seq<Entry>)
    requires StrictTotal(lt) && Sorted(lt, s)
    requires forall x, y :: x in s && y in s && x.id == y.id ==> x == y
    ensures DistinctIds(s)
    decreases |s|
  {
    if s != [] {
      var front, last := s[..|s| - 1], s[|s| - 1];
      assert s == front + [last] && last in [last];
      SortedConcat(lt, front, [last]);
      SortedIsDistinct(lt, front);
      forall x | x in front
        ensures x.id != last.id
      {
        BeforeIsAnOrder(lt, x, last);
      }
    }
  }

  // ---------- in a SQLite table ----------

  /** ORDER BY recorded_at DESC, id DESC. */
  function Descending(lt: TextOrder): TextOrder {
    (a, b) => lt(b, a)
  }

  function FirstK(s: seq<Entry>, k: nat): seq<Entry> {
    if |s| <= k then s else s[..k]
  }

  /** The DELETE keeps the rows whose id is among the first `max` in descending order. */
  function SqlPruned(lt: TextOrder, rows: seq<Entry>, max: Option<nat>): seq<Entry> {
    if max.None? then rows
    else Filter(Ids(FirstK(Sort(Descending(lt), rows), max.value)), rows)
  }

  /** The outer SELECT orders the inner one's first rows ascending. */
  function SqlListed(lt: TextOrder, rows: seq<Entry>, limit: Option<int>): Result<seq<Entry>, AuditError> {
    match NormalizeLimit(limit)
    case Err(e) => Err(e)
    case Ok(n) => Ok(Sort(lt, FirstK(Sort(Descending(lt), rows), n)))
  }

  function SqlRecord(lt: TextOrder, max: Option<nat>, rows: seq<Entry>, e: Entry): Result<seq<Entry>, AuditError> {
    if HasId(rows, e.id) then Err(DuplicateId) else Ok(SqlPruned(lt, rows + [e], max))
  }

  class SqliteAuditLog {
    const lt: TextOrder
    const maxEntries: Option<nat>
    /** The table's rows in insertion order; `id` is its primary key. */
    var rows: seq<Entry>

    constructor (lt: TextOrder, maxEntries: Option<nat>)
      requires ValidMax(maxEntries)
      ensures this.lt == lt && this.maxEntries == maxEntries && rows == []
    {
      this.lt, this.maxEntries, this.rows := lt, maxEntries, [];
    }

    method Record(entry: Entry) returns (r: Result<Entry, AuditError>)
      modifies this
      ensures match SqlRecord(lt, maxEntries, old(rows), entry)
        case Err(e) => r == Err(e) && rows == old(rows)
        case Ok(next) => r == Ok(entry) && rows == next
    {
      if exists row :: row in rows && row.id == entry.id {
        return Err(DuplicateId);
      }
      rows := rows + [entry];
      if maxEntries.Some? {
        var kept := Ids(FirstK(Sort(Descending(lt), rows), maxEntries.value));
        rows := Filter(kept, rows);
      }
      return Ok(entry);
    }

    method List(limit: Option<int>) returns (r: Result<seq<Entry>, AuditError>)
      ensures r == SqlListed(lt, rows, limit)
    {
      r := SqlListed(lt, rows, limit);
    }
  }

  function SqlAfter(lt: TextOrder, max: Option<nat>, history: seq<Entry>): Result<seq<Entry>, AuditError> {
    if history == [] then Ok([])
    else
      match SqlAfter(lt, max, history[..|history| - 1])
      case Err(e) => Err(e)
      case Ok(rows) =>
        SqlRecord(lt, max, rows, history[|history| - 1])
  }

  function Reverse(s: seq<Entry>): seq<Entry> {
    if s == [] then [] else Reverse(s[1..]) + [s[0]]
  }

  lemma {:induction false} ReverseMembers(s: seq<Entry>)
    ensures |Reverse(s)| == |s|
    ensures forall x :: x in Reverse(s) <==> x in s
    decreases |s|
  {
    if s != [] {
      ReverseMembers(s[1..]);
      assert s == [s[0]] + s[1..];
    }
  }

  lemma {:induction false} ReverseConcat(a: seq<Entry>, b: seq<Entry>)
    ensures Reverse(a + b) == Reverse(b) + Reverse(a)
    decreases |a|
  {
    if a == [] {
      assert a + b == b;
      assert Reverse(b) + [] == Reverse(b);
    } else {
      assert (a + b)[0] == a[0] && (a + b)[1..] == a[1..] + b;
      ReverseConcat(a[1..], b);
      ConcatAssoc(Reverse(b), Reverse(a[1..]), [a[0]]);
    }
  }

  lemma DescendingIsStrictTotal(lt: TextOrder)
    requires StrictTotal(lt)
    ensures StrictTotal(Descending(lt))
    ensures forall a, b :: Before(Descending(lt), a, b) <==> Before(lt, b, a)
  {
    var d := Descending(lt);
    assert forall a, b :: d(a, b) == lt(b, a);
  }

  lemma {:induction false} InsertDescending(lt: TextOrder, e: Entry, s: seq<Entry>)
    requires StrictTotal(lt) && Sorted(lt, s) && !HasId(s, e.id)
    ensures Insert(Descending(lt), e, Reverse(s)) == Reverse(Insert(lt, e, s))
    decreases |s|
  {
    var d := Descending(lt);
    DescendingIsStrictTotal(lt);
    if s == [] {
      assert Reverse([e]) == Reverse([]) + [e];
    } else {
      var h, t := s[0], s[1..];
      assert s == [h] + t && h in s;
      ReverseMembers(s);
      ReverseMembers(t);
      BeforeIsAnOrder(lt, e, h);
      if Before(lt, e, h) {
        BeforeHeadIsBeforeAll(lt, e, s);
        forall x | x in Reverse(s)
          ensures !Before(d, e, x)
        {
          BeforeIsAnOrder(lt, e, x);
        }
        InsertBehind(d, e, Reverse(s), []);
        assert Reverse(s) + [] == Reverse(s);
        assert ([e] + s)[1..] == s;
      } else {
        InsertDescending(lt, e, t);
        var r := [h] + Insert(lt, e, t);
        assert r[1..] == Insert(lt, e, t);
        if x :| x in Reverse(t) && Before(d, e, x) {
          InsertInFront(d, e, Reverse(t), [h]);
        } else {
          InsertBehind(d, e, Reverse(t), [h]);
          InsertBehind(d, e, Reverse(t), []);
          assert Reverse(t) + [] == Reverse(t);
          ConcatAssoc(Reverse(t), [e], [h]);
          assert [e] + [h] == Insert(d, e, [h]);
        }
      }
    }
  }

  lemma {:induction false} SortDescending(lt: TextOrder, s: seq<Entry>)
    requires StrictTotal(lt) && DistinctIds(s)
    ensures Sort(Descending(lt), s) == Reverse(Sort(lt, s))
    decreases |s|
  {
    if s != [] {
      var front := s[..|s| - 1];
      SortDescending(lt, front);
      SortMembers(lt, front);
      SortSorts(lt, front);
      InsertDescending(lt, s[|s| - 1], Sort(lt, front));
    }
  }

  lemma {:induction false} SortReversed(lt: TextOrder, s: seq<Entry>)
    requires Sorted(lt, s)
    ensures Sort(lt, Reverse(s)) == s
    decreases |s|
  {
    if s != [] {
      var r := Reverse(s);
      assert r[..|r| - 1] == Reverse(s[1..]);
      SortReversed(lt, s[1..]);
      InsertFirst(lt, s[0], s[1..]);
    }
  }

  /** The first rows in descending order are the last ones in ascending order, backwards. */
  lemma FirstDescending(lt: TextOrder, s: seq<Entry>, k: nat)
    requires StrictTotal(lt) && DistinctIds(s)
    ensures FirstK(Sort(Descending(lt), s), k) == Reverse(LastK(Sort(lt, s), k))
  {
    var sorted := Sort(lt, s);
    SortDescending(lt, s);
    ReverseMembers(sorted);
    if |sorted| > k {
      var a, kept := sorted[..|sorted| - k], sorted[|sorted| - k..];
      assert sorted == a + kept;
      ReverseConcat(a, kept);
      ReverseMembers(kept);
    }
  }

  /** The DELETE keeps, in place, the rows the array code keeps. */
  lemma {:induction false} SqlPrunesTheSame(lt: TextOrder, rows: seq<Entry>, max: Option<nat>)
    requires StrictTotal(lt) && DistinctIds(rows)
    ensures SqlPruned(lt, rows, max) == Pruned(lt, rows, max)
  {
    if max.Some? {
      var kept := LastK(Sort(lt, rows), max.value);
      SortMembers(lt, rows);
      FirstDescending(lt, rows, max.value);
      ReverseMembers(kept);
      assert Ids(Reverse(kept)) == Ids(kept);
      if |rows| <= max.value {
        FilterAll(Ids(kept), rows);
      }
    }
  }

  /** The nested SELECT lists what the array code lists. */
  lemma {:induction false} SqlListsTheSame(lt: TextOrder, rows: seq<Entry>, limit: Option<int>)
    requires StrictTotal(lt) && DistinctIds(rows)
    ensures SqlListed(lt, rows, limit) == Listed(lt, rows, limit)
  {
    if NormalizeLimit(limit).Ok? {
      var n := NormalizeLimit(limit).value;
      var sorted := Sort(lt, rows);
      SortSorts(lt, rows);
      FirstDescending(lt, rows, n);
      SplitLastK(sorted, n);
      SortedConcat(lt, Dropped(sorted, n), LastK(sorted, n));
      SortReversed(lt, LastK(sorted, n));
    }
  }

  /** Row for row, the table holds what the in-memory log holds. */
  lemma {:induction false} SqlHoldsTheSameRows(lt: TextOrder, max: Option<nat>, history: seq<Entry>)
    requires StrictTotal(lt) && ValidMax(max) && DistinctIds(history)
    ensures SqlAfter(lt, max, history) == Ok(MemoryAfter(lt, max, history))
    decreases |history|
  {
    if history != [] {
      var front, e := history[..|history| - 1], history[|history| - 1];
      SqlHoldsTheSameRows(lt, max, front);
      MemoryHoldsGreatest(lt, max, front);
      var rows := MemoryAfter(lt, max, front);
      assert (rows + [e])[..|rows|] == rows;
      SqlPrunesTheSame(lt, rows + [e], max);
    }
  }

  /**
   * For any records with distinct ids, and any restarts of the file form in between, the three forms list
   * the same entries: the last of the greatest `max` of the whole history, in ascending order.
   */
  lemma {:induction false} AllFormsListTheSame(lt: TextOrder, max: Option<nat>, ops: seq<JsonOp>, limit: Option<int>)
    requires StrictTotal(lt) && ValidMax(max) && DistinctIds(Recorded(ops))
    requires NormalizeLimit(limit).Ok?
    ensures var history := Recorded(ops);
      var expected := Ok(LastK(Keep(max, Sort(lt, history)), NormalizeLimit(limit).value));
      && Listed(lt, MemoryAfter(lt, max, history), limit) == expected
      && JsonAfter(lt, max, ops).Ok?
      && Listed(lt, JsonAfter(lt, max, ops).value.entries, limit) == expected
      && SqlAfter(lt, max, history).Ok?
      && SqlListed(lt, SqlAfter(lt, max, history).value, limit) == expected
  {
    var history := Recorded(ops);
    MemoryHoldsGreatest(lt, max, history);
    var json := JsonHoldsGreatest(lt, max, ops);
    SqlHoldsTheSameRows(lt, max, history);
    SqlListsTheSame(lt, MemoryAfter(lt, max, history), limit);
  }

  // ---------- what a reader gets ----------

  lemma CutTwice(s: seq<Entry>, a: nat, b: nat)
    ensures LastK(LastK(s, a), b) == LastK(s, Least(a, b))
  {
  }

  /** A list of the log: refused for a limit that is no positive safe integer, otherwise the latest entries. */
  predicate ListsLatest(
      lt: TextOrder, r: Result<seq<Entry>, AuditError>, history: seq<Entry>, max: Option<nat>, limit: Option<int>)
  {
    && (r.Err? <==> limit.Some? && (limit.value < 1 || limit.value > MAX_SAFE_INTEGER))
    && (r.Ok? ==>
          AreLatest(lt, r.value, history,
                    Least(Least(if limit.Some? then limit.value else 100, 1000),
                          if max.Some? then max.value else |history|)))
  }

  /**
   * For any records with distinct ids, restarts in between, and any limit at all: each of the three forms lists the
   * latest entries of the whole history in order of time and then id. There are as many as the limit (100 without
   * one), the cap of 1000, the retention bound and the history allow, and a bad limit is refused.
   */
  lemma {:induction false} EveryFormListsTheLatest(
      lt: TextOrder, max: Option<nat>, ops: seq<JsonOp>, limit: Option<int>)
    requires StrictTotal(lt) && ValidMax(max) && DistinctIds(Recorded(ops))
    ensures var history := Recorded(ops);
      && JsonAfter(lt, max, ops).Ok? && SqlAfter(lt, max, history).Ok?
      && ListsLatest(lt, Listed(lt, MemoryAfter(lt, max, history), limit), history, max, limit)
      && ListsLatest(lt, Listed(lt, JsonAfter(lt, max, ops).value.entries, limit), history, max, limit)
      && ListsLatest(lt, SqlListed(lt, SqlAfter(lt, max, history).value, limit), history, max, limit)
  {
    hide StrictTotal, DistinctIds, Recorded, Sort, AreLatest, MemoryAfter, JsonAfter, SqlAfter, JsonHolds;
    var history := Recorded(ops);
    if NormalizeLimit(limit).Ok? {
      AllFormsListTheSame(lt, max, ops, limit);
      var n := NormalizeLimit(limit).value;
      var k := if max.Some? then max.value else |history|;
      SortMembers(lt, history);
      CutTwice(Sort(lt, history), k, n);
      CutIsLatest(lt, history, Least(k, n));
    } else {
      var s := JsonHoldsGreatest(lt, max, ops);
      SqlHoldsTheSameRows(lt, max, history);
    }
  }

  /** No two entries of the list have one id. */
  predicate NoTwins(s: seq<Entry>) {
    forall i, j :: 0 <= i < j < |s| ==> s[i].id != s[j].id
  }

  lemma {:induction false} DistinctIsNoTwins(s: seq<Entry>)
    ensures DistinctIds(s) <==> NoTwins(s)
    decreases |s|
  {
    if s != [] {
      var front, last := s[..|s| - 1], s[|s| - 1];
      DistinctIsNoTwins(front);
      assert forall i :: 0 <= i < |front| ==> front[i] == s[i] && front[i] in front;
      if NoTwins(s) {
        forall e | e in front
          ensures e.id != last.id
        {
          var i :| 0 <= i < |front| && front[i] == e;
        }
      }
    }
  }

  /**
   * Opening the file form, whatever is in the file: a repeated id is refused; within the bound everything is taken
   * over and the file stays as it is; beyond it the latest entries are taken and the file is cut to them.
   */
  lemma {:induction false} OpeningAnswers(lt: TextOrder, max: Option<nat>, events: seq<Entry>)
    requires StrictTotal(lt) && ValidMax(max)
    ensures var r := JsonOpen(lt, max, Some(events));
      && (r == Err(DuplicateId) <==> !NoTwins(events)) && (r.Ok? <==> NoTwins(events))
      && (r.Ok? && (max.None? || |events| <= max.value) ==> r.value == JsonState(events, Some(events)))
      && (r.Ok? && max.Some? && |events| > max.value ==>
            && r.value.file.Some? && AreLatest(lt, r.value.file.value, events, max.value)
            && |r.value.entries| == max.value
            && (forall e :: e in r.value.entries <==> e in r.value.file.value))
  {
    hide StrictTotal, AreLatest, NoTwins, Sort, Filter;
    DistinctIsNoTwins(events);
    if DistinctIds(events) && max.Some? && |events| > max.value {
      PrunedKeepsGreatest(lt, events, max);
      CutIsLatest(lt, events, max.value);
      SortMembers(lt, events);
      SortMembers(lt, Pruned(lt, events, max));
    }
  }

  /** All operations in turn; a refused one changes nothing. */
  function JsonRun(lt: TextOrder, max: Option<nat>, ops: seq<JsonOp>): JsonState {
    if ops == [] then JsonState([], None)
    else
      var s := JsonRun(lt, max, ops[..|ops| - 1]);
      var r := match ops[|ops| - 1]
        case Records(e) => JsonRecord(lt, max, s, e)
        case Restarts => JsonOpen(lt, max, s.file);
      if r.Ok? then r.value else s
  }

  /**
   * Over any run, ids repeated or not, the file form never holds an id twice, in memory or on disk, and its restarts
   * never fail; the next record is refused exactly when its id is among the entries held then.
   */
  lemma {:induction false} JsonNeverHoldsAnIdTwice(lt: TextOrder, max: Option<nat>, ops: seq<JsonOp>, e: Entry)
    requires StrictTotal(lt) && ValidMax(max)
    ensures var s := JsonRun(lt, max, ops);
      && NoTwins(s.entries) && (s.file.Some? ==> NoTwins(s.file.value))
      && JsonOpen(lt, max, s.file).Ok?
      && (JsonRecord(lt, max, s, e) == Err(DuplicateId) <==> exists x :: x in s.entries && x.id == e.id)
      && (JsonRecord(lt, max, s, e).Ok? <==> forall x :: x in s.entries ==> x.id != e.id)
    decreases |ops|
  {
    hide StrictTotal, Pruned, Sort, NoTwins, DistinctIds;
    NothingIsTwice();
    if ops != [] {
      var before := JsonRun(lt, max, ops[..|ops| - 1]);
      JsonNeverHoldsAnIdTwice(lt, max, ops[..|ops| - 1], e);
      DistinctIsNoTwins(before.entries);
      match ops[|ops| - 1] {
        case Records(x) =>
          if JsonRecord(lt, max, before, x).Ok? {
            OneMoreIsDistinct(before.entries, x);
            PrunedAndSorted(lt, before.entries + [x], max);
          }
        case Restarts =>
          if before.file.Some? {
            DistinctIsNoTwins(before.file.value);
            PrunedAndSorted(lt, before.file.value, max);
          }
      }
    }
    var s := JsonRun(lt, max, ops);
    if s.file.Some? {
      DistinctIsNoTwins(s.file.value);
    }
  }

  /** All records in turn; a refused one changes nothing. */
  function SqlRun(lt: TextOrder, max: Option<nat>, records: seq<Entry>): seq<Entry> {
    if records == [] then []
    else
      var rows := SqlRun(lt, max, records[..|records| - 1]);
      match SqlRecord(lt, max, rows, records[|records| - 1]) case Ok(next) => next case Err(_) => rows
  }

  /** The table neither: after any records, ids repeated or not, the next is refused exactly when its id is there. */
  lemma {:induction false} SqlNeverHoldsAnIdTwice(lt: TextOrder, max: Option<nat>, records: seq<Entry>, e: Entry)
    requires StrictTotal(lt)
    ensures var rows := SqlRun(lt, max, records);
      && NoTwins(rows)
      && (SqlRecord(lt, max, rows, e) == Err(DuplicateId) <==> exists x :: x in rows && x.id == e.id)
      && (SqlRecord(lt, max, rows, e).Ok? <==> forall x :: x in rows ==> x.id != e.id)
    decreases |records|
  {
    hide StrictTotal, SqlPruned, NoTwins, DistinctIds;
    NothingIsTwice();
    if records != [] {
      var before, last := SqlRun(lt, max, records[..|records| - 1]), records[|records| - 1];
      SqlNeverHoldsAnIdTwice(lt, max, records[..|records| - 1], last);
      DistinctIsNoTwins(before);
      if SqlRecord(lt, max, before, last).Ok? {
        OneMoreIsDistinct(before, last);
        SqlPrunesTheSame(lt, before + [last], max);
        PrunedAndSorted(lt, before + [last], max);
      }
    }
  }

  lemma NothingIsTwice()
    ensures NoTwins([])
  {
  }

  lemma OneMoreIsDistinct(s: seq<Entry>, e: Entry)
    requires DistinctIds(s) && forall x :: x in s ==> x.id != e.id
    ensures DistinctIds(s + [e])
  {
    assert (s + [e])[..|s|] == s;
  }

  lemma PrunedAndSorted(lt: TextOrder, s: seq<Entry>, max: Option<nat>)
    requires StrictTotal(lt) && DistinctIds(s)
    ensures NoTwins(Pruned(lt, s, max)) && NoTwins(Sort(lt, Pruned(lt, s, max)))
  {
    hide StrictTotal, Pruned;
    var kept := Pruned(lt, s, max);
    PrunedKeepsGreatest(lt, s, max);
    DistinctIsNoTwins(kept);
    DistinctMembers(kept);
    SortSorts(lt, kept);
    SortMembers(lt, kept);
    SortedIsDistinct(lt, Sort(lt, kept));
    DistinctIsNoTwins(Sort(lt, kept));
  }
}
