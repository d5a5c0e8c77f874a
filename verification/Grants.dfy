/** Resource access grants: their records, and the steps of the store that keeps them in memory. */
module Grants {
  import opened Text
  import opened Base64Url

  datatype GrantError =
    | InvalidId | NotFound | AlreadyRevoked | Expired | TokenUnavailable | Conflict
    | InvalidTtl | InvalidExpiry | InvalidGrant | InvalidTarget

  datatype Exposure = Localhost | Lan | Public

  datatype Material = Redirect(targetUrl: string) | Content(dataRef: string, mime: string, sizeBytes: int, hash: string)

  /** What lies outside the model: SHA-256 in hex, and the parsing of target URLs. */
  datatype Platform = Platform(sha256: string -> string, targetUrl: string -> Result<string, GrantError>)

  datatype GrantInput = GrantInput(
    resourceAccessId: string, sessionId: string, resourceId: string, participantId: string,
    exposure: Exposure, material: Material, ttlMs: Option<int>, expiresAt: Option<int>)

  datatype Grant = Grant(
    resourceAccessId: string, tokenHash: string, sessionId: string, resourceId: string, participantId: string,
    exposure: Exposure, material: Material, createdAt: nat, expiresAt: nat,
    revokedAt: Option<nat>, accessCount: nat, lastAccessedAt: Option<nat>)

  /** What may be shown of a grant: neither its token's hash nor where its content lies. */
  datatype SafeView = SafeView(
    resourceAccessId: string, sessionId: string, resourceId: string, participantId: string, exposure: Exposure,
    createdAt: nat, expiresAt: nat, revokedAt: Option<nat>, accessCount: nat, lastAccessedAt: Option<nat>,
    content: Option<(string, int, string)>)

  const DEFAULT_TTL_MS: nat := 5 * 60 * 1000
  const MAX_TTL_MS: nat := 60 * 60 * 1000

  // ---------- records ----------

  function ParseTtl(ttl: int): Result<nat, GrantError> {
    if 0 < ttl <= MAX_TTL_MS then Ok(ttl) else Err(InvalidTtl)
  }

  /** Always after now, and at most the time to live away. */
  function ResolveExpiresAt(now: nat, explicit: Option<int>, ttl: int): (r: Result<nat, GrantError>)
    ensures r.Ok? ==> now < r.value <= now + MAX_TTL_MS
    ensures r.Ok? && explicit.Some? ==> r.value <= explicit.value
  {
    match ParseTtl(ttl)
    case Err(e) => Err(e)
    case Ok(t) =>
      if explicit.None? then Ok(now + t)
      else if explicit.value <= now then Err(InvalidExpiry)
      else Ok(if explicit.value < now + t then explicit.value else now + t)
  }

  function ParseMaterial(p: Platform, m: Material): Result<Material, GrantError> {
    match m
    case Redirect(url) =>
      (match p.targetUrl(url) case Err(e) => Err(e) case Ok(u) => Ok(Redirect(u)))
    case Content(dataRef, mime, size, hash) =>
      if size < 0 || Trim(dataRef) == "" || Trim(mime) == "" || Trim(hash) == "" then Err(InvalidGrant)
      else Ok(Content(Trim(dataRef), Trim(mime), size, Trim(hash)))
  }

  function NewGrant(
      p: Platform, ttl: nat, input: GrantInput, accessId: string, now: nat): (r: Result<Grant, GrantError>)
    ensures r.Ok? ==> r.value.resourceAccessId == Trim(input.resourceAccessId)
    ensures r.Ok? ==> r.value.tokenHash == p.sha256(accessId)
    ensures r.Ok? ==> r.value.sessionId == Trim(input.sessionId) && r.value.resourceId == Trim(input.resourceId)
    ensures r.Ok? ==> r.value.participantId == Trim(input.participantId) && r.value.exposure == input.exposure
    ensures r.Ok? ==> r.value.createdAt == now < r.value.expiresAt <= now + MAX_TTL_MS
    ensures r.Ok? ==> r.value.revokedAt == None && r.value.accessCount == 0 && r.value.lastAccessedAt == None
  {
    match ResolveExpiresAt(now, input.expiresAt, if input.ttlMs.Some? then input.ttlMs.value else ttl)
    case Err(e) => Err(e)
    case Ok(expiresAt) =>
      if Trim(input.resourceAccessId) == "" || Trim(input.sessionId) == "" || Trim(input.resourceId) == ""
         || Trim(input.participantId) == "" then Err(InvalidGrant)
      else
        match ParseMaterial(p, input.material)
        case Err(e) => Err(e)
        case Ok(material) =>
          Ok(Grant(Trim(input.resourceAccessId), p.sha256(accessId), Trim(input.sessionId), Trim(input.resourceId),
                   Trim(input.participantId), input.exposure, material, now, expiresAt, None, 0, None))
  }

  function ViewOf(g: Grant): SafeView {
    SafeView(g.resourceAccessId, g.sessionId, g.resourceId, g.participantId, g.exposure, g.createdAt, g.expiresAt,
             g.revokedAt, g.accessCount, g.lastAccessedAt,
             if g.material.Content? then Some((g.material.mime, g.material.sizeBytes, g.material.hash)) else None)
  }

  /** The generator is asked up to ten times; an ill-formed token ends it, a token in use is skipped. */
  function FindToken(
      p: Platform, draws: nat -> string, used: set<string>, attempt: nat): (r: Result<string, GrantError>)
    ensures r.Ok? ==> IsToken(r.value) && p.sha256(r.value) !in used
    decreases 10 - attempt
  {
    if attempt >= 10 then Err(TokenUnavailable)
    else if !IsToken(draws(attempt)) then Err(InvalidId)
    else if p.sha256(draws(attempt)) in used then FindToken(p, draws, used, attempt + 1)
    else Ok(draws(attempt))
  }

  predicate InUse(p: Platform, draws: nat -> string, used: set<string>, k: nat) {
    IsToken(draws(k)) && p.sha256(draws(k)) in used
  }

  /**
   * All depends on the first draw not in use: it is given out if it is well formed, and with ten draws in use
   * there is none.
   */
  lemma {:induction false} FirstUnusedDecides(
      p: Platform, draws: nat -> string, used: set<string>, attempt: nat)
    returns (k: nat)
    requires attempt <= 10
    ensures attempt <= k <= 10 && (forall j :: attempt <= j < k ==> InUse(p, draws, used, j))
    ensures k < 10 ==> !InUse(p, draws, used, k)
    ensures FindToken(p, draws, used, attempt) ==
            if k == 10 then Err(TokenUnavailable) else if IsToken(draws(k)) then Ok(draws(k)) else Err(InvalidId)
    decreases 10 - attempt
  {
    hide IsToken;
    if attempt < 10 && InUse(p, draws, used, attempt) {
      k := FirstUnusedDecides(p, draws, used, attempt + 1);
    } else {
      k := attempt;
    }
  }

  // ---------- the store in memory ----------

  /** The tokens a creation would draw come with it. */
  datatype Op = Create(input: GrantInput, draws: nat -> string) | Access(accessId: string)
      | Revoke(accessId: string) | View(accessId: string)

  datatype Outcome =
    Created(accessId: string, grant: Grant) | Accessed(grant: Grant) | Revoked(grant: Grant)
        | Viewed(view: SafeView) | Failed(error: GrantError)

  /** The grants by the hash of their token. */
  type Store = map<string, Grant>

  function GetGrant(p: Platform, store: Store, accessId: string): Result<Grant, GrantError> {
    if !IsToken(accessId) then Err(InvalidId)
    else if p.sha256(accessId) !in store then Err(NotFound)
    else Ok(store[p.sha256(accessId)])
  }

  function Creates(p: Platform, ttl: nat, used: set<string>, op: Op, now: nat): Result<(string, Grant), GrantError>
    requires op.Create?
  {
    match FindToken(p, op.draws, used, 0)
    case Err(e) => Err(e)
    case Ok(token) =>
      match NewGrant(p, ttl, op.input, token, now)
      case Err(e) => Err(e)
      case Ok(g) => Ok((token, g))
  }

  function Step(p: Platform, ttl: nat, store: Store, op: Op, now: nat): (Store, Outcome) {
    match op
    case Create(_, _) =>
      (match Creates(p, ttl, store.Keys, op, now)
       case Err(e) => (store, Failed(e))
       case Ok((token, g)) => (store[g.tokenHash := g], Created(token, g)))
    case Access(id) =>
      (match GetGrant(p, store, id)
       case Err(e) => (store, Failed(e))
       case Ok(g) =>
         if g.revokedAt.Some? then (store, Failed(AlreadyRevoked))
         else if g.expiresAt <= now then (store - {p.sha256(id)}, Failed(Expired))
         else
           var next := g.(accessCount := g.accessCount + 1, lastAccessedAt := Some(now));
           (store[p.sha256(id) := next], Accessed(next)))
    case Revoke(id) =>
      (match GetGrant(p, store, id)
       case Err(e) => (store, Failed(e))
       case Ok(g) =>
         var next := if g.revokedAt.Some? then g else g.(revokedAt := Some(now));
         (store[p.sha256(id) := next], Revoked(next)))
    case View(id) =>
      (match GetGrant(p, store, id)
       case Err(e) => (store, Failed(e))
       case Ok(g) => (store, Viewed(ViewOf(g))))
  }

  /** The option a store is made with; a value the check rejects makes no store. */
  function DefaultTtl(option: Option<int>): Result<nat, GrantError> {
    ParseTtl(if option.Some? then option.value else DEFAULT_TTL_MS)
  }

  class ResourceAccessGrantStore {
    const platform: Platform
    const defaultTtlMs: nat
    var grantsByTokenHash: Store

    constructor (platform: Platform, defaultTtlMs: nat)
      requires exists option :: DefaultTtl(option) == Ok(defaultTtlMs)
      ensures this.platform == platform && this.defaultTtlMs == defaultTtlMs && grantsByTokenHash == map[]
    {
      this.platform, this.defaultTtlMs, grantsByTokenHash := platform, defaultTtlMs, map[];
    }

    method CreateGrant(input: GrantInput, draws: nat -> string, now: nat) returns (r: Outcome)
      modifies this
      ensures (grantsByTokenHash, r) == Step(platform, defaultTtlMs, old(grantsByTokenHash), Create(input, draws), now)
    {
      var token := CreateUniqueToken(draws);
      if token.Err? {
        return Failed(token.error);
      }
      var grant := NewGrant(platform, defaultTtlMs, input, token.value, now);
      if grant.Err? {
        return Failed(grant.error);
      }
      grantsByTokenHash := grantsByTokenHash[grant.value.tokenHash := grant.value];
      r := Created(token.value, grant.value);
    }

    method CreateUniqueToken(draws: nat -> string) returns (r: Result<string, GrantError>)
      ensures r == FindToken(platform, draws, grantsByTokenHash.Keys, 0)
    {
      var attempt := 0;
      while attempt < 10
        invariant 0 <= attempt <= 10
        invariant FindToken(platform, draws, grantsByTokenHash.Keys, 0) ==
            FindToken(platform, draws, grantsByTokenHash.Keys, attempt)
      {
        var token := draws(attempt);
        if !IsToken(token) {
          return Err(InvalidId);
        }
        if platform.sha256(token) !in grantsByTokenHash {
          return Ok(token);
        }
        attempt := attempt + 1;
      }
      r := Err(TokenUnavailable);
    }

    method RecordAccess(accessId: string, now: nat) returns (r: Outcome)
      modifies this
      ensures (grantsByTokenHash, r) == Step(platform, defaultTtlMs, old(grantsByTokenHash), Access(accessId), now)
    {
      var found := GetGrant(platform, grantsByTokenHash, accessId);
      if found.Err? {
        return Failed(found.error);
      }
      var grant := found.value;
      if grant.revokedAt.Some? {
        return Failed(AlreadyRevoked);
      }
      if grant.expiresAt <= now {
        grantsByTokenHash := grantsByTokenHash - {platform.sha256(accessId)};
        return Failed(Expired);
      }
      grant := grant.(accessCount := grant.accessCount + 1);
      grant := grant.(lastAccessedAt := Some(now));
      grantsByTokenHash := grantsByTokenHash[platform.sha256(accessId) := grant];
      r := Accessed(grant);
    }

    method RevokeGrant(accessId: string, now: nat) returns (r: Outcome)
      modifies this
      ensures (grantsByTokenHash, r) == Step(platform, defaultTtlMs, old(grantsByTokenHash), Revoke(accessId), now)
    {
      var found := GetGrant(platform, grantsByTokenHash, accessId);
      if found.Err? {
        return Failed(found.error);
      }
      var grant := found.value;
      if grant.revokedAt.None? {
        grant := grant.(revokedAt := Some(now));
      }
      grantsByTokenHash := grantsByTokenHash[platform.sha256(accessId) := grant];
      r := Revoked(grant);
    }

    method GetSafeView(accessId: string) returns (r: Outcome)
      ensures (grantsByTokenHash, r) == Step(platform, defaultTtlMs, grantsByTokenHash, View(accessId), 0)
    {
      var found := GetGrant(platform, grantsByTokenHash, accessId);
      if found.Err? {
        return Failed(found.error);
      }
      r := Viewed(ViewOf(found.value));
    }
  }

  // ---------- what one step keeps ----------

  /** Every grant is stored under its own hash, lives at most an hour, and was only accessed while it lived. */
  predicate GrantOk(h: string, g: Grant) {
    && g.tokenHash == h
    && g.createdAt < g.expiresAt <= g.createdAt + MAX_TTL_MS
    && (g.accessCount > 0 <==> g.lastAccessedAt.Some?)
    && (g.lastAccessedAt.Some? ==> g.createdAt <= g.lastAccessedAt.value < g.expiresAt)
    && (g.revokedAt.Some? ==> g.createdAt <= g.revokedAt.value)
    && (g.revokedAt.Some? && g.lastAccessedAt.Some? ==> g.lastAccessedAt.value <= g.revokedAt.value)
  }

  predicate WrittenBy(g: Grant, now: nat) {
    && g.createdAt <= now
    && (g.lastAccessedAt.Some? ==> g.lastAccessedAt.value <= now)
    && (g.revokedAt.Some? ==> g.revokedAt.value <= now)
  }

  predicate StoreOk(store: Store, now: nat) {
    forall h :: h in store ==> (GrantOk(h, store[h]) && WrittenBy(store[h], now))
  }

  predicate GrantSeen(store: Store, h: string, now: nat) {
    h in store ==> GrantOk(h, store[h]) && WrittenBy(store[h], now)
  }

  lemma CreateKeepsGrant(p: Platform, ttl: nat, store: Store, before: nat, op: Op, now: nat, h: string)
    requires GrantSeen(store, h, before) && before <= now && op.Create?
    ensures GrantSeen(Step(p, ttl, store, op, now).0, h, now)
  {
    hide NewGrant, FindToken, IsToken;
  }

  lemma AccessKeepsGrant(p: Platform, ttl: nat, store: Store, before: nat, op: Op, now: nat, h: string)
    requires GrantSeen(store, h, before) && before <= now && op.Access?
    ensures GrantSeen(Step(p, ttl, store, op, now).0, h, now)
  {
    hide IsToken;
  }

  lemma RevokeKeepsGrant(p: Platform, ttl: nat, store: Store, before: nat, op: Op, now: nat, h: string)
    requires GrantSeen(store, h, before) && before <= now && (op.Revoke? || op.View?)
    ensures GrantSeen(Step(p, ttl, store, op, now).0, h, now)
  {
    hide IsToken;
  }

  lemma {:induction false} StepKeepsStore(p: Platform, ttl: nat, store: Store, before: nat, op: Op, now: nat)
    requires StoreOk(store, before) && before <= now
    ensures StoreOk(Step(p, ttl, store, op, now).0, now)
  {
    hide Step, GrantOk, WrittenBy;
    var next := Step(p, ttl, store, op, now).0;
    forall h | h in next
      ensures GrantOk(h, next[h]) && WrittenBy(next[h], now)
    {
      match op {
        case Create(_, _) => CreateKeepsGrant(p, ttl, store, before, op, now, h);
        case Access(_) => AccessKeepsGrant(p, ttl, store, before, op, now, h);
        case _ => RevokeKeepsGrant(p, ttl, store, before, op, now, h);
      }
      assert GrantSeen(next, h, now);
    }
  }

  // ---------- whole runs ----------

  datatype Timed = Timed(op: Op, now: nat)

  /** A store that starts empty and the operations it is given. */
  datatype History = History(p: Platform, ttl: nat, run: seq<Timed>)

  predicate Clocked(run: seq<Timed>) {
    forall i, j :: 0 <= i <= j < |run| ==> run[i].now <= run[j].now
  }

  function StoreAt(w: History, i: nat): Store
    requires i <= |w.run|
  {
    if i == 0 then map[] else Step(w.p, w.ttl, StoreAt(w, i - 1), w.run[i - 1].op, w.run[i - 1].now).0
  }

  function OutcomeAt(w: History, i: nat): Outcome
    requires i < |w.run|
  {
    Step(w.p, w.ttl, StoreAt(w, i), w.run[i].op, w.run[i].now).1
  }

  predicate AccessedAt(w: History, i: nat, h: string)
    requires i < |w.run|
  {
    w.run[i].op.Access? && OutcomeAt(w, i).Accessed? && w.p.sha256(w.run[i].op.accessId) == h
  }

  predicate RevokedAt(w: History, i: nat, h: string)
    requires i < |w.run|
  {
    w.run[i].op.Revoke? && OutcomeAt(w, i).Revoked? && w.p.sha256(w.run[i].op.accessId) == h
  }

  predicate CreatedAt(w: History, i: nat, h: string)
    requires i < |w.run|
  {
    OutcomeAt(w, i).Created? && OutcomeAt(w, i).grant.tokenHash == h
  }

  /** In every state of every run each grant lives after its creation and at most an hour. */
  lemma {:induction false} StoresStayOk(w: History, i: nat)
    requires Clocked(w.run) && i <= |w.run|
    ensures StoreOk(StoreAt(w, i), if i == 0 then 0 else w.run[i - 1].now)
  {
    hide StoreOk, Step;
    if i == 0 {
      EmptyIsOk();
    } else {
      StoresStayOk(w, i - 1);
      StepKeepsStore(w.p, w.ttl, StoreAt(w, i - 1), if i == 1 then 0
          else w.run[i - 2].now, w.run[i - 1].op, w.run[i - 1].now);
    }
  }

  lemma EmptyIsOk()
    ensures StoreOk(map[], 0)
  {
  }

  lemma StepOnRevoked(p: Platform, ttl: nat, store: Store, op: Op, now: nat, h: string)
    requires h in store && store[h].revokedAt.Some?
    ensures var (next, outcome) := Step(p, ttl, store, op, now);
      && h in next && next[h] == store[h]
      && !(op.Access? && outcome.Accessed? && p.sha256(op.accessId) == h)
      && !(outcome.Created? && outcome.grant.tokenHash == h)
  {
    hide IsToken, ResolveExpiresAt, ParseMaterial, Trim;
    if op.Create? && Creates(p, ttl, store.Keys, op, now).Ok? {
      var token := FindToken(p, op.draws, store.Keys, 0).value;
      assert p.sha256(token) !in store.Keys;
    }
  }

  /** Revoking is for ever: the grant, its first revocation time and its access count never change again. */
  lemma {:induction false} RevokedForever(w: History, i: nat, j: nat, h: string)
    requires i <= j <= |w.run| && h in StoreAt(w, i) && StoreAt(w, i)[h].revokedAt.Some?
    ensures h in StoreAt(w, j) && StoreAt(w, j)[h] == StoreAt(w, i)[h]
    ensures j < |w.run| ==> !AccessedAt(w, j, h) && !CreatedAt(w, j, h)
    decreases j
  {
    hide Step;
    if j > i {
      RevokedForever(w, i, j - 1, h);
      StepOnRevoked(w.p, w.ttl, StoreAt(w, j - 1), w.run[j - 1].op, w.run[j - 1].now, h);
    }
    if j < |w.run| {
      StepOnRevoked(w.p, w.ttl, StoreAt(w, j), w.run[j].op, w.run[j].now, h);
    }
  }

  /** Nothing to be had under this hash at or after `t`. */
  predicate Dead(store: Store, h: string, t: nat) {
    h in store ==> store[h].expiresAt <= t
  }

  lemma StepOnDead(p: Platform, ttl: nat, store: Store, op: Op, now: nat, h: string, t: nat)
    requires Dead(store, h, t) && t <= now
    ensures var (next, outcome) := Step(p, ttl, store, op, now);
      && !(op.Access? && outcome.Accessed? && p.sha256(op.accessId) == h)
      && ((outcome.Created? && outcome.grant.tokenHash == h) || Dead(next, h, t))
  {
    hide IsToken, FindToken, ResolveExpiresAt, ParseMaterial, Trim;
  }

  /** From its expiry on, a token gives nothing, until the generator draws it again for a new grant. */
  lemma {:induction false} ExpiredForever(w: History, i: nat, j: nat, h: string, t: nat)
    requires Clocked(w.run) && i <= j < |w.run| && Dead(StoreAt(w, i), h, t) && t <= w.run[i].now
    requires forall k :: i <= k < j ==> !CreatedAt(w, k, h)
    ensures Dead(StoreAt(w, j), h, t) && !AccessedAt(w, j, h)
    decreases j
  {
    hide Step, Dead;
    if j > i {
      ExpiredForever(w, i, j - 1, h, t);
      StepOnDead(w.p, w.ttl, StoreAt(w, j - 1), w.run[j - 1].op, w.run[j - 1].now, h, t);
      assert !CreatedAt(w, j - 1, h);
    }
    StepOnDead(w.p, w.ttl, StoreAt(w, j), w.run[j].op, w.run[j].now, h, t);
  }

  function Accesses(w: History, first: nat, end: nat, h: string): nat
    requires first <= end <= |w.run|
    decreases end
  {
    if first == end then 0
    else Accesses(w, first, end - 1, h) + (if AccessedAt(w, end - 1, h) then 1 else 0)
  }

  /** What one step does to a grant that stays under its hash. */
  lemma StepOnGrant(p: Platform, ttl: nat, store: Store, op: Op, now: nat, h: string)
    ensures var (next, outcome) := Step(p, ttl, store, op, now);
      h in next ==>
        if outcome.Created? && outcome.grant.tokenHash == h then h !in store && next[h] == outcome.grant
          && outcome.grant.accessCount == 0 && outcome.grant.createdAt == now && outcome.grant.revokedAt == None
        else
          h in store && next[h].createdAt == store[h].createdAt && next[h].expiresAt == store[h].expiresAt
          && next[h].accessCount == store[h].accessCount
             + (if op.Access? && outcome.Accessed? && p.sha256(op.accessId) == h then 1 else 0)
          && (op.Revoke? && outcome.Revoked? && p.sha256(op.accessId) == h ==> next[h].revokedAt.Some?)
          && (store[h].revokedAt.Some? ==> next[h].revokedAt.Some?)
  {
    hide IsToken, ResolveExpiresAt, ParseMaterial, Trim;
    if op.Create? && Creates(p, ttl, store.Keys, op, now).Ok? {
      var token := FindToken(p, op.draws, store.Keys, 0).value;
      assert p.sha256(token) !in store.Keys;
    }
  }

  /**
   * Every stored grant has one creation behind it; since then its count is the number of accesses
   * that succeeded, and unless it is revoked no revocation succeeded.
   */
  ghost predicate StemsFrom(w: History, i: nat, h: string, c: nat)
    requires c < i <= |w.run|
  {
    && h in StoreAt(w, i) && CreatedAt(w, c, h)
    && StoreAt(w, i)[h].expiresAt == OutcomeAt(w, c).grant.expiresAt
    && StoreAt(w, i)[h].createdAt == w.run[c].now
    && StoreAt(w, i)[h].accessCount == Accesses(w, c + 1, i, h)
    && (StoreAt(w, i)[h].revokedAt.None? ==> forall k :: c < k < i ==> !RevokedAt(w, k, h))
  }

  lemma StemsFromCreation(w: History, i: nat, h: string)
    requires 0 < i <= |w.run|
    ensures h in StoreAt(w, i) && CreatedAt(w, i - 1, h) ==> StemsFrom(w, i, h, i - 1)
  {
    hide Step;
    StepOnGrant(w.p, w.ttl, StoreAt(w, i - 1), w.run[i - 1].op, w.run[i - 1].now, h);
    NoAccesses(w, i, h);
  }

  lemma {:induction false} NoAccesses(w: History, i: nat, h: string)
    requires i <= |w.run|
    ensures Accesses(w, i, i, h) == 0
  {
  }

  lemma {:induction false} StemsOn(w: History, i: nat, h: string, c: nat)
    requires c < i - 1 < |w.run|
    ensures StemsFrom(w, i - 1, h, c) && h in StoreAt(w, i) && !CreatedAt(w, i - 1, h) ==> StemsFrom(w, i, h, c)
  {
    hide Step;
    StepOnGrant(w.p, w.ttl, StoreAt(w, i - 1), w.run[i - 1].op, w.run[i - 1].now, h);
  }

  lemma StayedThere(w: History, i: nat, h: string)
    requires 0 < i <= |w.run| && h in StoreAt(w, i) && !CreatedAt(w, i - 1, h)
    ensures h in StoreAt(w, i - 1)
  {
    hide Step;
    StepOnGrant(w.p, w.ttl, StoreAt(w, i - 1), w.run[i - 1].op, w.run[i - 1].now, h);
  }

  lemma {:induction false} CreationOf(w: History, i: nat, h: string) returns (c: nat)
    requires i <= |w.run|
    ensures h in StoreAt(w, i) ==> c < i && StemsFrom(w, i, h, c)
    decreases i
  {
    hide Step, StemsFrom, CreatedAt;
    c := 0;
    if h in StoreAt(w, i) {
      if CreatedAt(w, i - 1, h) {
        c := i - 1;
        StemsFromCreation(w, i, h);
      } else {
        StayedThere(w, i, h);
        c := CreationOf(w, i - 1, h);
        StemsOn(w, i, h, c);
      }
    }
  }

  /** An access succeeds exactly for a well-formed token of a stored grant that is neither revoked nor over. */
  lemma {:induction false} AccessSucceedsIff(p: Platform, ttl: nat, store: Store, id: string, now: nat)
    ensures Step(p, ttl, store, Access(id), now).1.Accessed? <==>
      IsToken(id) && p.sha256(id) in store && store[p.sha256(id)].revokedAt == None &&
          now < store[p.sha256(id)].expiresAt
    ensures Step(p, ttl, store, Access(id), now).1.Accessed? ==>
      var g := Step(p, ttl, store, Access(id), now).1.grant;
      g.accessCount == store[p.sha256(id)].accessCount + 1 && g.lastAccessedAt == Some(now)
  {
    hide IsToken;
  }

  /**
   * A successful access at any point of any run: some earlier creation made the grant, within the last
   * hour, its time was not over, it was not revoked since, and the new count is the number of
   * successful accesses since then, this one included.
   */
  lemma {:induction false} AccessHasItsGrant(w: History, i: nat, h: string) returns (c: nat)
    requires Clocked(w.run) && i < |w.run| && AccessedAt(w, i, h)
    ensures c < i && CreatedAt(w, c, h)
    ensures w.run[c].now <= w.run[i].now < OutcomeAt(w, c).grant.expiresAt <= w.run[c].now + MAX_TTL_MS
    ensures forall k :: c < k < i ==> !RevokedAt(w, k, h)
    ensures OutcomeAt(w, i).grant.accessCount == Accesses(w, c + 1, i + 1, h)
    ensures OutcomeAt(w, i).grant.lastAccessedAt == Some(w.run[i].now)
  {
    hide StoreAt, IsToken, Step;
    var id := w.run[i].op.accessId;
    assert w.run[i].op == Access(id);
    AccessSucceedsIff(w.p, w.ttl, StoreAt(w, i), id, w.run[i].now);
    c := CreationOf(w, i, h);
    StoresStayOk(w, i);
    assert GrantOk(h, StoreAt(w, i)[h]);
  }
}
