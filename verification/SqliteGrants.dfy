/** The same store as a SQLite table: transactions over rows, and how they simulate the store in memory. */
module SqliteGrants {
  import opened Text
  import opened Base64Url
  import opened Grants

  // ---------- the table ----------

  /** A row: its key, its unique column, the two columns that updates write, and the stored record. */
  datatype Row = Row(tokenHash: string, resourceAccessId: string, expiresAt: nat, revokedAt: Option<nat>, grant: Grant)

  type Table = seq<Row>

  function RowOf(g: Grant): Row {
    Row(g.tokenHash, g.resourceAccessId, g.expiresAt, g.revokedAt, g)
  }

  function SelectByHash(table: Table, h: string): Option<Grant> {
    if table == [] then None else if table[0].tokenHash == h then Some(table[0].grant) else SelectByHash(table[1..], h)
  }

  function SelectById(table: Table, id: string): Option<Grant> {
    if table == [] then None else if table[0].resourceAccessId == id then Some(table[0].grant)
        else SelectById(table[1..], id)
  }

  function InsertRow(table: Table, g: Grant): Table {
    table + [RowOf(g)]
  }

  /** UPDATE ... WHERE token_hash = ? */
  function UpdateRow(table: Table, g: Grant): Table {
    if table == [] then [] else [UpdatedRow(table[0], g)] + UpdateRow(table[1..], g)
  }

  function UpdatedRow(row: Row, g: Grant): Row {
    if row.tokenHash == g.tokenHash then row.(expiresAt := g.expiresAt, revokedAt := g.revokedAt, grant := g) else row
  }

  /** DELETE ... WHERE token_hash = ? */
  function DeleteRow(table: Table, h: string): Table {
    if table == [] then []
    else (if table[0].tokenHash == h then [] else [table[0]]) + DeleteRow(table[1..], h)
  }

  function Hashes(table: Table): set<string> {
    set i | 0 <= i < |table| :: table[i].tokenHash
  }

  function Ids(table: Table): set<string> {
    set i | 0 <= i < |table| :: table[i].resourceAccessId
  }

  // ---------- transactions ----------

  /** A transaction ends by returning, which commits, or by throwing, which undoes what it wrote. */
  datatype Tx<T> = Returned(table: Table, value: T) | Thrown(error: GrantError)

  /** A returned value may itself be an error; the caller throws it after the commit. */
  datatype AccessResult = AccessGrant(grant: Grant) | AccessError(error: GrantError)

  function CreateTx(
      p: Platform, ttl: nat, table: Table, input: GrantInput, draws: nat -> string, now: nat): Tx<(string, Grant)>
  {
    CreateFrom(p, ttl, table, input, draws, now, 0)
  }

  function CreateFrom(
      p: Platform, ttl: nat, table: Table, input: GrantInput, draws: nat -> string, now: nat,
      attempt: nat): Tx<(string, Grant)>
    decreases 10 - attempt
  {
    if attempt >= 10 then Thrown(TokenUnavailable)
    else if !IsToken(draws(attempt)) then Thrown(InvalidId)
    else if SelectByHash(table, p.sha256(draws(attempt))).Some? then
        CreateFrom(p, ttl, table, input, draws, now, attempt + 1)
    else
      match NewGrant(p, ttl, input, draws(attempt), now)
      case Err(e) => Thrown(e)
      case Ok(g) =>
        if SelectById(table, g.resourceAccessId).Some? then Thrown(Conflict)
        else Returned(InsertRow(table, g), (draws(attempt), g))
  }

  function RowFor(p: Platform, table: Table, id: string): Result<Grant, GrantError> {
    if !IsToken(id) then Err(InvalidId)
    else
      match SelectByHash(table, p.sha256(id))
      case None => Err(NotFound)
      case Some(g) => Ok(g)
  }

  function AccessTx(p: Platform, table: Table, id: string, now: nat): Tx<AccessResult> {
    match RowFor(p, table, id)
    case Err(e) => Thrown(e)
    case Ok(g) =>
      if g.revokedAt.Some? then Returned(table, AccessError(AlreadyRevoked))
      else if g.expiresAt <= now then Returned(DeleteRow(table, g.tokenHash), AccessError(Expired))
      else
        var next := g.(accessCount := g.accessCount + 1, lastAccessedAt := Some(now));
        Returned(UpdateRow(table, next), AccessGrant(next))
  }

  function RevokeTx(p: Platform, table: Table, id: string, now: nat): Tx<Grant> {
    match RowFor(p, table, id)
    case Err(e) => Thrown(e)
    case Ok(g) =>
      if g.revokedAt.Some? then Returned(table, g)
      else
        var next := g.(revokedAt := Some(now));
        Returned(UpdateRow(table, next), next)
  }

  /** One operation: the table after it, and what the caller gets. */
  function SqlStep(p: Platform, ttl: nat, table: Table, op: Op, now: nat): (Table, Outcome) {
    match op
    case Create(input, draws) =>
      (match CreateTx(p, ttl, table, input, draws, now)
       case Thrown(e) => (table, Failed(e))
       case Returned(next, made) => (next, Created(made.0, made.1)))
    case Access(id) =>
      (match AccessTx(p, table, id, now)
       case Thrown(e) => (table, Failed(e))
       case Returned(next, AccessError(e)) => (next, Failed(e))
       case Returned(next, AccessGrant(g)) => (next, Accessed(g)))
    case Revoke(id) =>
      (match RevokeTx(p, table, id, now)
       case Thrown(e) => (table, Failed(e))
       case Returned(next, g) => (next, Revoked(g)))
    case View(id) =>
      (match RowFor(p, table, id)
       case Err(e) => (table, Failed(e))
       case Ok(g) => (table, Viewed(ViewOf(g))))
  }

  class SQLiteResourceAccessGrantStore {
    const platform: Platform
    const defaultTtlMs: nat
    var table: Table

    constructor (platform: Platform, defaultTtlMs: nat, table: Table)
      requires exists option :: DefaultTtl(option) == Ok(defaultTtlMs)
      ensures this.platform == platform && this.defaultTtlMs == defaultTtlMs && this.table == table
    {
      this.platform, this.defaultTtlMs, this.table := platform, defaultTtlMs, table;
    }

    method CreateGrant(input: GrantInput, draws: nat -> string, now: nat) returns (r: Outcome)
      modifies this
      ensures (table, r) == SqlStep(platform, defaultTtlMs, old(table), Create(input, draws), now)
    {
      var attempt := 0;
      while attempt < 10
        invariant 0 <= attempt <= 10 && table == old(table)
        invariant CreateTx(platform, defaultTtlMs, table, input, draws, now) ==
                  CreateFrom(platform, defaultTtlMs, table, input, draws, now, attempt)
      {
        var accessId := draws(attempt);
        if !IsToken(accessId) {
          return Failed(InvalidId);
        }
        var taken := SelectByHash(table, platform.sha256(accessId));
        if taken.None? {
          var grant := NewGrant(platform, defaultTtlMs, input, accessId, now);
          if grant.Err? {
            return Failed(grant.error);
          }
          var other := SelectById(table, grant.value.resourceAccessId);
          if other.Some? {
            return Failed(Conflict);
          }
          table := InsertRow(table, grant.value);
          return Created(accessId, grant.value);
        }
        attempt := attempt + 1;
      }
      r := Failed(TokenUnavailable);
    }

    method RecordAccess(accessId: string, now: nat) returns (r: Outcome)
      modifies this
      ensures (table, r) == SqlStep(platform, defaultTtlMs, old(table), Access(accessId), now)
    {
      var found := RowFor(platform, table, accessId);
      if found.Err? {
        return Failed(found.error);
      }
      var grant := found.value;
      if grant.revokedAt.Some? {
        return Failed(AlreadyRevoked);
      }
      if grant.expiresAt <= now {
        table := DeleteRow(table, grant.tokenHash);
        return Failed(Expired);
      }
      var updated := grant.(accessCount := grant.accessCount + 1, lastAccessedAt := Some(now));
      table := UpdateRow(table, updated);
      r := Accessed(updated);
    }

    method RevokeGrant(accessId: string, now: nat) returns (r: Outcome)
      modifies this
      ensures (table, r) == SqlStep(platform, defaultTtlMs, old(table), Revoke(accessId), now)
    {
      var found := RowFor(platform, table, accessId);
      if found.Err? {
        return Failed(found.error);
      }
      if found.value.revokedAt.Some? {
        return Revoked(found.value);
      }
      var updated := found.value.(revokedAt := Some(now));
      table := UpdateRow(table, updated);
      r := Revoked(updated);
    }

    method GetSafeView(accessId: string) returns (r: Outcome)
      ensures (table, r) == SqlStep(platform, defaultTtlMs, table, View(accessId), 0)
    {
      var found := RowFor(platform, table, accessId);
      if found.Err? {
        return Failed(found.error);
      }
      r := Viewed(ViewOf(found.value));
    }
  }

  // ---------- the rows as a map ----------

  /** Columns agree with the stored record; the key and the unique column are unique. */
  predicate TableOk(table: Table) {
    && (forall i :: 0 <= i < |table| ==> table[i] == RowOf(table[i].grant))
    && (forall i, j :: 0 <= i < j < |table| ==>
          table[i].tokenHash != table[j].tokenHash && table[i].resourceAccessId != table[j].resourceAccessId)
  }

  function StoreOf(table: Table): Store {
    if table == [] then map[] else StoreOf(table[1..])[table[0].tokenHash := table[0].grant]
  }

  lemma {:induction false} StoreKeys(table: Table)
    ensures StoreOf(table).Keys == Hashes(table)
    decreases |table|
  {
    if table != [] {
      StoreKeys(table[1..]);
      forall h | h in Hashes(table)
        ensures h == table[0].tokenHash || h in Hashes(table[1..])
      {
        var i :| 0 <= i < |table| && table[i].tokenHash == h;
        assert i > 0 ==> table[i] == table[1..][i - 1];
      }
      forall h | h in Hashes(table[1..])
        ensures h in Hashes(table)
      {
        var i :| 0 <= i < |table| - 1 && table[1..][i].tokenHash == h;
        assert table[i + 1].tokenHash == h;
      }
      assert table[0].tokenHash in Hashes(table);
    }
  }

  /** Looking a key up in the table is looking it up in the map. */
  lemma {:induction false} SelectAgrees(table: Table, h: string)
    ensures SelectByHash(table, h) == if h in StoreOf(table) then Some(StoreOf(table)[h]) else None
    decreases |table|
  {
    if table != [] {
      SelectAgrees(table[1..], h);
    }
  }

  lemma {:induction false} SelectByIdFinds(table: Table, id: string)
    ensures SelectById(table, id).Some? <==> id in Ids(table)
    decreases |table|
  {
    if table != [] {
      SelectByIdFinds(table[1..], id);
      if id in Ids(table) && table[0].resourceAccessId != id {
        var i :| 0 <= i < |table| && table[i].resourceAccessId == id;
        assert table[1..][i - 1].resourceAccessId == id;
      }
      if id in Ids(table[1..]) {
        var i :| 0 <= i < |table| - 1 && table[1..][i].resourceAccessId == id;
        assert table[i + 1].resourceAccessId == id;
      }
    }
  }

  lemma TailOk(table: Table)
    requires TableOk(table) && table != []
    ensures TableOk(table[1..]) && table[0].tokenHash !in StoreOf(table[1..])
  {
    StoreKeys(table[1..]);
    assert forall i :: 0 <= i < |table| - 1 ==> table[1..][i] == table[i + 1];
  }

  lemma {:induction false} UpdateAgrees(table: Table, g: Grant)
    requires TableOk(table)
    ensures StoreOf(UpdateRow(table, g)) == if g.tokenHash in StoreOf(table) then StoreOf(table)[g.tokenHash := g]
        else StoreOf(table)
    decreases |table|
  {
    if table != [] {
      TailOk(table);
      UpdateAgrees(table[1..], g);
      var next := UpdateRow(table, g);
      assert next[1..] == UpdateRow(table[1..], g);
    }
  }

  lemma {:induction false} UpdateRows(table: Table, g: Grant)
    ensures |UpdateRow(table, g)| == |table|
    ensures forall i :: 0 <= i < |table| ==> UpdateRow(table, g)[i] == UpdatedRow(table[i], g)
    decreases |table|
  {
    if table != [] {
      UpdateRows(table[1..], g);
      assert UpdateRow(table, g)[1..] == UpdateRow(table[1..], g);
      forall i | 0 < i < |table|
        ensures UpdateRow(table, g)[i] == UpdateRow(table[1..], g)[i - 1] && table[i] == table[1..][i - 1]
      {
      }
    }
  }

  lemma {:induction false} DeleteAgrees(table: Table, h: string)
    requires TableOk(table)
    ensures StoreOf(DeleteRow(table, h)) == StoreOf(table) - {h}
    decreases |table|
  {
    hide TableOk;
    if table != [] {
      TailOk(table);
      DeleteAgrees(table[1..], h);
      var rest := DeleteRow(table[1..], h);
      if table[0].tokenHash != h {
        assert DeleteRow(table, h)[1..] == rest;
        PutThenDrop(StoreOf(table[1..]), table[0].tokenHash, table[0].grant, h);
      } else {
        assert DeleteRow(table, h) == rest;
      }
    }
  }

  lemma PutThenDrop(store: Store, k: string, g: Grant, h: string)
    requires k != h
    ensures store[k := g] - {h} == (store - {h})[k := g]
  {
  }

  lemma {:induction false} DeleteOk(table: Table, h: string)
    requires TableOk(table)
    ensures TableOk(DeleteRow(table, h)) && Hashes(DeleteRow(table, h)) <= Hashes(table) &&
        Ids(DeleteRow(table, h)) <= Ids(table)
    decreases |table|
  {
    hide TableOk, Hashes, Ids, StoreOf;
    if table != [] {
      TailOk(table);
      DeleteOk(table[1..], h);
      var rest := DeleteRow(table[1..], h);
      SubsetOfTail(table);
      if table[0].tokenHash != h {
        assert DeleteRow(table, h) == [table[0]] + rest;
        FirstApart(table);
        ConsOk(table[0], rest);
        ConsNames(table[0], rest);
      } else {
        assert DeleteRow(table, h) == rest;
      }
    }
  }

  lemma SubsetOfTail(table: Table)
    requires table != []
    ensures Hashes(table[1..]) <= Hashes(table) && Ids(table[1..]) <= Ids(table)
    ensures table[0].tokenHash in Hashes(table) && table[0].resourceAccessId in Ids(table)
  {
    assert forall i :: 0 <= i < |table| - 1 ==> table[1..][i] == table[i + 1];
  }

  lemma FirstApart(table: Table)
    requires TableOk(table) && table != []
    ensures table[0] == RowOf(table[0].grant)
    ensures table[0].tokenHash !in Hashes(table[1..]) && table[0].resourceAccessId !in Ids(table[1..])
  {
    assert forall i :: 0 <= i < |table| - 1 ==> table[1..][i] == table[i + 1];
  }

  lemma ConsOk(row: Row, rest: Table)
    requires TableOk(rest) && row == RowOf(row.grant)
    requires row.tokenHash !in Hashes(rest) && row.resourceAccessId !in Ids(rest)
    ensures TableOk([row] + rest)
  {
    var table := [row] + rest;
    assert table[0] == row;
    assert forall i :: 0 <= i < |rest| ==> table[i + 1] == rest[i];
    forall i, j | 0 <= i < j < |table|
      ensures table[i].tokenHash != table[j].tokenHash && table[i].resourceAccessId != table[j].resourceAccessId
    {
      assert table[j] == rest[j - 1];
      if i > 0 {
        assert table[i] == rest[i - 1];
      }
    }
  }

  lemma ConsNames(row: Row, rest: Table)
    ensures Hashes([row] + rest) == {row.tokenHash} + Hashes(rest)
    ensures Ids([row] + rest) == {row.resourceAccessId} + Ids(rest)
  {
    var table := [row] + rest;
    forall i | 0 <= i < |rest|
      ensures table[i + 1] == rest[i]
    {
    }
    forall h | h in {row.tokenHash} + Hashes(rest)
      ensures h in Hashes(table)
    {
      if h != row.tokenHash {
        var i :| 0 <= i < |rest| && rest[i].tokenHash == h;
        assert table[i + 1].tokenHash == h;
      } else {
        assert table[0].tokenHash == h;
      }
    }
    forall h | h in {row.resourceAccessId} + Ids(rest)
      ensures h in Ids(table)
    {
      if h != row.resourceAccessId {
        var i :| 0 <= i < |rest| && rest[i].resourceAccessId == h;
        assert table[i + 1].resourceAccessId == h;
      } else {
        assert table[0].resourceAccessId == h;
      }
    }
  }

  lemma {:induction false} InsertAgrees(table: Table, g: Grant)
    requires TableOk(table) && g.tokenHash !in Hashes(table)
    ensures StoreOf(InsertRow(table, g)) == StoreOf(table)[g.tokenHash := g]
    decreases |table|
  {
    hide TableOk, Hashes, Ids;
    var next := InsertRow(table, g);
    if table == [] {
      assert next == [RowOf(g)] && next[1..] == [];
    } else {
      TailOk(table);
      SubsetOfTail(table);
      assert g.tokenHash != table[0].tokenHash;
      InsertAgrees(table[1..], g);
      assert next[1..] == InsertRow(table[1..], g) && next[0] == table[0];
      PutBoth(StoreOf(table[1..]), g.tokenHash, g, table[0].tokenHash, table[0].grant);
    }
  }

  lemma PutBoth(store: Store, h: string, g: Grant, k: string, f: Grant)
    requires k != h
    ensures store[h := g][k := f] == store[k := f][h := g]
  {
  }

  lemma InsertOk(table: Table, g: Grant)
    requires TableOk(table) && g.tokenHash !in Hashes(table) && g.resourceAccessId !in Ids(table)
    ensures TableOk(InsertRow(table, g)) && Ids(InsertRow(table, g)) == Ids(table) + {g.resourceAccessId}
  {
    var next := InsertRow(table, g);
    assert forall i :: 0 <= i < |table| ==> next[i] == table[i];
    assert next[|table|] == RowOf(g);
    forall id | id in Ids(table) + {g.resourceAccessId}
      ensures id in Ids(next)
    {
      if id in Ids(table) {
        var i :| 0 <= i < |table| && table[i].resourceAccessId == id;
        assert next[i].resourceAccessId == id;
      }
    }
  }

  /** An update that keeps the key and the id of the stored record keeps the table well-formed. */
  lemma UpdateOk(table: Table, g: Grant)
    requires TableOk(table)
    requires g.tokenHash in StoreOf(table) && StoreOf(table)[g.tokenHash].resourceAccessId == g.resourceAccessId
    ensures TableOk(UpdateRow(table, g)) && Ids(UpdateRow(table, g)) == Ids(table)
  {
    UpdateRows(table, g);
    var next := UpdateRow(table, g);
    forall i | 0 <= i < |table|
      ensures next[i] == RowOf(next[i].grant)
      ensures next[i].tokenHash == table[i].tokenHash && next[i].resourceAccessId == table[i].resourceAccessId
    {
      if table[i].tokenHash == g.tokenHash {
        StoredAt(table, i);
      }
    }
  }

  lemma {:induction false} StoredAt(table: Table, i: nat)
    requires TableOk(table) && i < |table|
    ensures table[i].tokenHash in StoreOf(table) && StoreOf(table)[table[i].tokenHash] == table[i].grant
    decreases |table|
  {
    if i > 0 {
      TailOk(table);
      StoredAt(table[1..], i - 1);
      assert table[i] == table[1..][i - 1];
    }
  }

  // ---------- simulation ----------

  /** The SQLite transaction creates what the store in memory creates, unless the id is there already. */
  lemma {:induction false} CreateAgrees(
      p: Platform, ttl: nat, table: Table, input: GrantInput, draws: nat -> string, now: nat, attempt: nat)
    ensures CreateFrom(p, ttl, table, input, draws, now, attempt) ==
      match FindToken(p, draws, StoreOf(table).Keys, attempt)
      case Err(e) => Thrown(e)
      case Ok(token) =>
        match NewGrant(p, ttl, input, token, now)
        case Err(e) => Thrown(e)
        case Ok(g) => if g.resourceAccessId in Ids(table) then Thrown(Conflict)
            else Returned(InsertRow(table, g), (token, g))
    decreases 10 - attempt
  {
    hide NewGrant, IsToken, Ids;
    if attempt < 10 && IsToken(draws(attempt)) {
      SelectAgrees(table, p.sha256(draws(attempt)));
      if SelectByHash(table, p.sha256(draws(attempt))).Some? {
        CreateAgrees(p, ttl, table, input, draws, now, attempt + 1);
      } else if NewGrant(p, ttl, input, draws(attempt), now).Ok? {
        SelectByIdFinds(table, NewGrant(p, ttl, input, draws(attempt), now).value.resourceAccessId);
      }
    }
  }

  /** A creation that the store in memory accepts although its id is in the table. */
  predicate Clashes(p: Platform, ttl: nat, table: Table, op: Op, now: nat) {
    && op.Create?
    && Trim(op.input.resourceAccessId) in Ids(table)
    && Creates(p, ttl, Hashes(table), op, now).Ok?
  }

  predicate Matches(p: Platform, ttl: nat, table: Table, op: Op, now: nat) {
    && SqlStep(p, ttl, table, op, now).1 == Step(p, ttl, StoreOf(table), op, now).1
    && StoreOf(SqlStep(p, ttl, table, op, now).0) == Step(p, ttl, StoreOf(table), op, now).0
  }

  function NewIds(op: Op): set<string> {
    if op.Create? then {Trim(op.input.resourceAccessId)} else {}
  }

  /** One operation gives the same answer and the same grants on both, exactly when its id does not clash. */
  lemma {:induction false} StepsMatch(p: Platform, ttl: nat, table: Table, op: Op, now: nat)
    requires TableOk(table)
    ensures Matches(p, ttl, table, op, now) <==> !Clashes(p, ttl, table, op, now)
    ensures TableOk(SqlStep(p, ttl, table, op, now).0)
    ensures Ids(SqlStep(p, ttl, table, op, now).0) <= Ids(table) + NewIds(op)
  {
    match op {
      case Create(input, draws) => CreateMatches(p, ttl, table, op, now);
      case Access(id) => AccessMatches(p, ttl, table, id, now);
      case Revoke(id) => RevokeMatches(p, ttl, table, id, now);
      case View(id) => SelectAgrees(table, p.sha256(id));
    }
  }

  lemma {:induction false} CreateMatches(p: Platform, ttl: nat, table: Table, op: Op, now: nat)
    requires TableOk(table) && op.Create?
    ensures Matches(p, ttl, table, op, now) <==> !Clashes(p, ttl, table, op, now)
    ensures TableOk(SqlStep(p, ttl, table, op, now).0)
    ensures Ids(SqlStep(p, ttl, table, op, now).0) <= Ids(table) + NewIds(op)
  {
    hide IsToken, Ids, TableOk, Hashes, ResolveExpiresAt, ParseMaterial, Trim, InsertRow;
    CreateAgrees(p, ttl, table, op.input, op.draws, now, 0);
    StoreKeys(table);
    var made := Creates(p, ttl, StoreOf(table).Keys, op, now);
    if made.Ok? && made.value.1.resourceAccessId !in Ids(table) {
      assert made.value.1.tokenHash !in Hashes(table);
      InsertAgrees(table, made.value.1);
      InsertOk(table, made.value.1);
    }
  }

  lemma HashOf(table: Table, h: string)
    requires TableOk(table) && SelectByHash(table, h).Some?
    ensures SelectByHash(table, h).value.tokenHash == h
  {
    hide Ids, Hashes;
  }

  lemma AccessMatches(p: Platform, ttl: nat, table: Table, id: string, now: nat)
    requires TableOk(table)
    ensures Matches(p, ttl, table, Access(id), now)
    ensures TableOk(SqlStep(p, ttl, table, Access(id), now).0)
    ensures Ids(SqlStep(p, ttl, table, Access(id), now).0) <= Ids(table)
  {
    hide IsToken, Ids, TableOk, Hashes, UpdateRow, DeleteRow, SelectByHash, StoreOf;
    var h := p.sha256(id);
    SelectAgrees(table, h);
    if SelectByHash(table, h).Some? {
      HashOf(table, h);
      var g := SelectByHash(table, h).value;
      var next := g.(accessCount := g.accessCount + 1, lastAccessedAt := Some(now));
      DeleteAgrees(table, h);
      DeleteOk(table, h);
      UpdateAgrees(table, next);
      UpdateOk(table, next);
    }
  }

  lemma RevokeMatches(p: Platform, ttl: nat, table: Table, id: string, now: nat)
    requires TableOk(table)
    ensures Matches(p, ttl, table, Revoke(id), now)
    ensures TableOk(SqlStep(p, ttl, table, Revoke(id), now).0)
    ensures Ids(SqlStep(p, ttl, table, Revoke(id), now).0) <= Ids(table)
  {
    hide IsToken, Ids, TableOk, Hashes, UpdateRow, SelectByHash, StoreOf;
    var h := p.sha256(id);
    SelectAgrees(table, h);
    if SelectByHash(table, h).Some? {
      HashOf(table, h);
      var g := SelectByHash(table, h).value;
      UpdateAgrees(table, g.(revokedAt := Some(now)));
      UpdateOk(table, g.(revokedAt := Some(now)));
      assert StoreOf(table)[h := g] == StoreOf(table);
    }
  }

  // ---------- whole runs ----------

  function TableAfter(p: Platform, ttl: nat, table: Table, run: seq<Timed>): Table
    decreases |run|
  {
    if run == [] then table else TableAfter(p, ttl, SqlStep(p, ttl, table, run[0].op, run[0].now).0, run[1..])
  }

  function SqlOutcomes(p: Platform, ttl: nat, table: Table, run: seq<Timed>): seq<Outcome>
    decreases |run|
  {
    if run == [] then []
    else
      var (next, outcome) := SqlStep(p, ttl, table, run[0].op, run[0].now);
      [outcome] + SqlOutcomes(p, ttl, next, run[1..])
  }

  function StoreAfter(p: Platform, ttl: nat, store: Store, run: seq<Timed>): Store
    decreases |run|
  {
    if run == [] then store else StoreAfter(p, ttl, Step(p, ttl, store, run[0].op, run[0].now).0, run[1..])
  }

  function Outcomes(p: Platform, ttl: nat, store: Store, run: seq<Timed>): seq<Outcome>
    decreases |run|
  {
    if run == [] then []
    else
      var (next, outcome) := Step(p, ttl, store, run[0].op, run[0].now);
      [outcome] + Outcomes(p, ttl, next, run[1..])
  }

  /** No creation of the run uses an id that is in use or that an earlier creation of the run used. */
  predicate FreshIds(used: set<string>, run: seq<Timed>)
    decreases |run|
  {
    run == [] || (NewIds(run[0].op) !! used && FreshIds(used + NewIds(run[0].op), run[1..]))
  }

  /** A clash shows in the answer at once: the store in memory creates the grant, the SQLite store refuses it. */
  lemma {:induction false} ClashShows(p: Platform, ttl: nat, table: Table, op: Op, now: nat)
    requires TableOk(table) && Clashes(p, ttl, table, op, now)
    ensures SqlStep(p, ttl, table, op, now).1 == Failed(Conflict)
    ensures Step(p, ttl, StoreOf(table), op, now).1.Created?
  {
    hide IsToken, Ids, TableOk, Hashes, ResolveExpiresAt, ParseMaterial, Trim, InsertRow;
    CreateAgrees(p, ttl, table, op.input, op.draws, now, 0);
    StoreKeys(table);
  }

  /** No creation of the run is accepted in memory while its id is in the table. */
  predicate NeverClashes(p: Platform, ttl: nat, table: Table, run: seq<Timed>)
    decreases |run|
  {
    run != [] ==>
      && !Clashes(p, ttl, table, run[0].op, run[0].now)
      && NeverClashes(p, ttl, SqlStep(p, ttl, table, run[0].op, run[0].now).0, run[1..])
  }

  /**
   * Over any run, whatever its ids: both stores give the same answers exactly when no creation clashes, and then
   * they hold the same grants at the end.
   */
  lemma {:induction false} AnswersAgreeIff(p: Platform, ttl: nat, table: Table, run: seq<Timed>)
    requires TableOk(table)
    ensures SqlOutcomes(p, ttl, table, run) == Outcomes(p, ttl, StoreOf(table), run) <==>
            NeverClashes(p, ttl, table, run)
    ensures NeverClashes(p, ttl, table, run) ==>
      StoreOf(TableAfter(p, ttl, table, run)) == StoreAfter(p, ttl, StoreOf(table), run)
    ensures TableOk(TableAfter(p, ttl, table, run))
    decreases |run|
  {
    hide SqlStep, Step, TableOk, StoreOf, Clashes;
    if run != [] {
      var op, now := run[0].op, run[0].now;
      var next := SqlStep(p, ttl, table, op, now).0;
      StepsMatch(p, ttl, table, op, now);
      var sql, mem := SqlOutcomes(p, ttl, table, run), Outcomes(p, ttl, StoreOf(table), run);
      assert sql[0] == SqlStep(p, ttl, table, op, now).1 && mem[0] == Step(p, ttl, StoreOf(table), op, now).1;
      AnswersAgreeIff(p, ttl, next, run[1..]);
      if Clashes(p, ttl, table, op, now) {
        ClashShows(p, ttl, table, op, now);
      } else {
        assert sql[1..] == SqlOutcomes(p, ttl, next, run[1..]) && mem[1..] == Outcomes(p, ttl, StoreOf(next), run[1..]);
      }
    }
  }

  /** With fresh ids nothing clashes. */
  lemma {:induction false} FreshIdsNeverClash(p: Platform, ttl: nat, table: Table, used: set<string>, run: seq<Timed>)
    requires TableOk(table) && Ids(table) <= used && FreshIds(used, run)
    ensures NeverClashes(p, ttl, table, run)
    decreases |run|
  {
    hide SqlStep, Step, TableOk, Ids, StoreOf, Creates, Hashes;
    if run != [] {
      var op, now := run[0].op, run[0].now;
      StepsMatch(p, ttl, table, op, now);
      assert !Clashes(p, ttl, table, op, now);
      FreshIdsNeverClash(p, ttl, SqlStep(p, ttl, table, op, now).0, used + NewIds(op), run[1..]);
    }
  }

  /**
   * With fresh ids both stores answer alike for ever, whatever the operations, clock readings and
   * token draws, and they always hold the same grants.
   */
  lemma {:induction false} StoresAgree(p: Platform, ttl: nat, table: Table, used: set<string>, run: seq<Timed>)
    requires TableOk(table) && Ids(table) <= used && FreshIds(used, run)
    ensures SqlOutcomes(p, ttl, table, run) == Outcomes(p, ttl, StoreOf(table), run)
    ensures StoreOf(TableAfter(p, ttl, table, run)) == StoreAfter(p, ttl, StoreOf(table), run)
    ensures TableOk(TableAfter(p, ttl, table, run))
  {
    hide TableOk, Ids, StoreOf, NeverClashes, FreshIds, SqlOutcomes, Outcomes, TableAfter, StoreAfter;
    FreshIdsNeverClash(p, ttl, table, used, run);
    AnswersAgreeIff(p, ttl, table, run);
  }

  /** From the empty stores. */
  lemma {:induction false} EmptyStoresAgreeIff(p: Platform, ttl: nat, run: seq<Timed>)
    ensures SqlOutcomes(p, ttl, [], run) == Outcomes(p, ttl, map[], run) <==> NeverClashes(p, ttl, [], run)
  {
    hide SqlOutcomes, Outcomes, NeverClashes;
    NothingStored();
    AnswersAgreeIff(p, ttl, [], run);
  }

  lemma {:induction false} OneMoreStep(p: Platform, ttl: nat, store: Store, run: seq<Timed>, t: Timed)
    ensures StoreAfter(p, ttl, store, run + [t]) == Step(p, ttl, StoreAfter(p, ttl, store, run), t.op, t.now).0
    ensures Outcomes(p, ttl, store, run + [t]) ==
            Outcomes(p, ttl, store, run) + [Step(p, ttl, StoreAfter(p, ttl, store, run), t.op, t.now).1]
    decreases |run|
  {
    hide Step;
    if run == [] {
      assert [] + [t] == [t] && [t][1..] == [];
    } else {
      assert (run + [t])[1..] == run[1..] + [t];
      OneMoreStep(p, ttl, Step(p, ttl, store, run[0].op, run[0].now).0, run[1..], t);
    }
  }

  lemma {:induction false} HistoryIsRun(w: History, n: nat)
    requires n <= |w.run|
    ensures StoreAt(w, n) == StoreAfter(w.p, w.ttl, map[], w.run[..n])
    ensures |Outcomes(w.p, w.ttl, map[], w.run[..n])| == n
    ensures forall i :: 0 <= i < n ==> Outcomes(w.p, w.ttl, map[], w.run[..n])[i] == OutcomeAt(w, i)
    decreases n
  {
    hide Step;
    if n > 0 {
      HistoryIsRun(w, n - 1);
      assert w.run[..n] == w.run[..n - 1] + [w.run[n - 1]];
      OneMoreStep(w.p, w.ttl, map[], w.run[..n - 1], w.run[n - 1]);
    }
  }

  /** What holds of every history of the store in memory holds of the SQLite store's answers too. */
  lemma {:induction false} SqliteAnswersTheHistory(w: History, i: nat)
    requires FreshIds({}, w.run) && i < |w.run|
    ensures |SqlOutcomes(w.p, w.ttl, [], w.run)| == |w.run|
    ensures SqlOutcomes(w.p, w.ttl, [], w.run)[i] == OutcomeAt(w, i)
  {
    hide OutcomeAt, StoreAt, SqlOutcomes, Outcomes, FreshIds, TableAfter, StoreAfter;
    assert w.run[..|w.run|] == w.run;
    HistoryIsRun(w, |w.run|);
    assert StoreOf([]) == map[];
    StoresAgree(w.p, w.ttl, [], {}, w.run);
  }

  lemma FirstDrawIsUsed(p: Platform, draws: nat -> string, used: set<string>)
    requires IsToken(draws(0)) && p.sha256(draws(0)) !in used
    ensures FindToken(p, draws, used, 0) == Ok(draws(0))
  {
  }

  lemma OneRow(g: Grant)
    ensures InsertRow([], g) == [RowOf(g)] && StoreOf([RowOf(g)]) == map[g.tokenHash := g]
    ensures Hashes([RowOf(g)]) == {g.tokenHash} && Ids([RowOf(g)]) == {g.resourceAccessId}
  {
    var table := [RowOf(g)];
    assert table[1..] == [];
    assert table[0].tokenHash == g.tokenHash && table[0].resourceAccessId == g.resourceAccessId;
  }

  /**
   * A clash that a run from the empty stores comes to: an id used again under another token. The store in
   * memory creates both grants, the SQLite store refuses the second.
   */
  lemma {:induction false} SecondUseOfAnIdDiffers(
      p: Platform, ttl: nat, input: GrantInput, a: nat -> string, b: nat -> string, now: nat)
    requires IsToken(a(0)) && IsToken(b(0)) && p.sha256(a(0)) != p.sha256(b(0))
    requires NewGrant(p, ttl, input, a(0), now).Ok?
    ensures var s1, t1 := Step(p, ttl, map[], Create(input, a), now), SqlStep(p, ttl, [], Create(input, a), now);
      && s1.1.Created? && t1.1 == s1.1
      && Clashes(p, ttl, t1.0, Create(input, b), now)
      && Step(p, ttl, s1.0, Create(input, b), now).1.Created?
      && SqlStep(p, ttl, t1.0, Create(input, b), now).1 == Failed(Conflict)
  {
    hide IsToken, ResolveExpiresAt, ParseMaterial, Trim, FindToken, CreateFrom, InsertRow, StoreOf, Ids, Hashes;
    var g := NewGrant(p, ttl, input, a(0), now).value;
    var f := g.(tokenHash := p.sha256(b(0)));
    assert NewGrant(p, ttl, input, b(0), now) == Ok(f);
    FirstDrawIsUsed(p, a, {});
    FirstDrawIsUsed(p, b, {g.tokenHash});
    NothingStored();
    OneRow(g);
    CreateAgrees(p, ttl, [], input, a, now, 0);
    CreateAgrees(p, ttl, [RowOf(g)], input, b, now, 0);
    var empty: Store := map[];
    assert empty.Keys == {} && empty[g.tokenHash := g].Keys == {g.tokenHash};
  }

  lemma NothingStored()
    ensures StoreOf([]) == map[] && Ids([]) == {}
  {
  }
}
