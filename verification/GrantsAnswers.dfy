/** What the grant store answers, case by case, told by the fields of the request and of the stored grant. */
module GrantsAnswers {
  import opened Text
  import opened Base64Url
  import opened Grants
  import opened Checks

  // ---------- creating ----------

  /** The first draw that is not a token in use, if one of the first ten is not. */
  predicate IsChosen(p: Platform, store: Store, draws: nat -> string, k: nat) {
    && k <= 10
    && (forall j :: 0 <= j < k ==> WellFormed(draws(j)) && p.sha256(draws(j)) in store)
    && (k < 10 ==> !(WellFormed(draws(k)) && p.sha256(draws(k)) in store))
  }

  /** Why a creation is refused by its token or its times, in the order of the checks. */
  function TimeChecks(ttl: nat, input: GrantInput, draws: nat -> string, now: nat, k: nat): seq<(bool, GrantError)> {
    var asked := if input.ttlMs.Some? then input.ttlMs.value else ttl;
    [(k >= 10, TokenUnavailable),
     (!WellFormed(draws(k)), InvalidId),
     (asked < 1 || asked > 3600000, InvalidTtl),
     (input.expiresAt.Some? && input.expiresAt.value <= now, InvalidExpiry)]
  }

  /** Why it is refused by its fields. */
  function FieldChecks(p: Platform, input: GrantInput): seq<(bool, GrantError)> {
    var m := input.material;
    var target := if m.Redirect? then p.targetUrl(m.targetUrl) else Ok("");
    [(Trim(input.resourceAccessId) == "" || Trim(input.sessionId) == "" || Trim(input.resourceId) == ""
      || Trim(input.participantId) == "", InvalidGrant),
     (m.Redirect? && target.Err?, if target.Err? then target.error else InvalidTarget),
     (m.Content? && (m.sizeBytes < 0 || Trim(m.dataRef) == "" || Trim(m.mime) == "" || Trim(m.hash) == ""),
      InvalidGrant)]
  }

  /** The material of a grant: where its target leads, or where its content lies and what it is. */
  predicate IsMaterial(p: Platform, m: Material, given: Material) {
    if given.Redirect? then p.targetUrl(given.targetUrl).Ok? && m == Redirect(p.targetUrl(given.targetUrl).value)
    else m == Content(Trim(given.dataRef), Trim(given.mime), given.sizeBytes, Trim(given.hash))
  }

  lemma {:induction false} ExpiryAnswers(now: nat, explicit: Option<int>, ttl: int)
    ensures var r := ResolveExpiresAt(now, explicit, ttl);
      && (r == Err(InvalidTtl) <==> ttl < 1 || ttl > 3600000)
      && (r == Err(InvalidExpiry) <==> 1 <= ttl <= 3600000 && explicit.Some? && explicit.value <= now)
      && (r.Ok? <==> 1 <= ttl <= 3600000 && (explicit.Some? ==> now < explicit.value))
      && (r.Ok? ==> r.value == if explicit.Some? then Least(explicit.value, now + ttl) else now + ttl)
  {
  }

  lemma {:induction false} RecordAnswers(
      p: Platform, ttl: nat, input: GrantInput, draws: nat -> string, now: nat, k: nat)
    requires k < 10 && WellFormed(draws(k))
    ensures var r := NewGrant(p, ttl, input, draws(k), now);
      var refusal := FirstOf(TimeChecks(ttl, input, draws, now, k) + FieldChecks(p, input));
      && (r.Err? <==> refusal.Some?) && (r.Err? ==> Some(r.error) == refusal)
      && (r.Ok? ==>
            var asked := if input.ttlMs.Some? then input.ttlMs.value else ttl;
            && r.value.expiresAt ==
                 (if input.expiresAt.Some? then Least(input.expiresAt.value, now + asked) else now + asked)
            && IsMaterial(p, r.value.material, input.material))
  {
    hide Trim, WellFormed;
    var t, u := TimeChecks(ttl, input, draws, now, k), FieldChecks(p, input);
    FirstOfConcat(t, u);
    FourChecks(t);
    FirstOfThree(u[0], u[1], u[2]);
    assert u == [u[0], u[1], u[2]];
    ExpiryAnswers(now, input.expiresAt, if input.ttlMs.Some? then input.ttlMs.value else ttl);
  }

  /** The grant that a request makes, under a token, from now on. */
  predicate IsAsAsked(p: Platform, ttl: nat, g: Grant, input: GrantInput, token: string, now: nat) {
    var asked := if input.ttlMs.Some? then input.ttlMs.value else ttl;
    && g.resourceAccessId == Trim(input.resourceAccessId) && g.tokenHash == p.sha256(token)
    && g.sessionId == Trim(input.sessionId) && g.resourceId == Trim(input.resourceId)
    && g.participantId == Trim(input.participantId) && g.exposure == input.exposure
    && IsMaterial(p, g.material, input.material) && g.createdAt == now
    && g.expiresAt == (if input.expiresAt.Some? then Least(input.expiresAt.value, now + asked) else now + asked)
    && g.revokedAt == None && g.accessCount == 0 && g.lastAccessedAt == None
  }

  /**
   * A creation takes the first draw that is not in use. It is refused exactly when a check fails, with the error of
   * the first that does, and then changes nothing; otherwise the grant asked for is stored under its token's hash
   * and returned with the token. It ends with the time to live, or earlier when the request says so.
   */
  lemma {:induction false} CreatingAnswers(
      p: Platform, ttl: nat, store: Store, input: GrantInput, draws: nat -> string, now: nat) returns (k: nat)
    ensures IsChosen(p, store, draws, k)
    ensures var (next, out) := Step(p, ttl, store, Create(input, draws), now);
      var refusal := FirstOf(TimeChecks(ttl, input, draws, now, k) + FieldChecks(p, input));
      && (out.Failed? || out.Created?)
      && (out.Failed? <==> refusal.Some?) && (out.Failed? ==> Some(out.error) == refusal && next == store)
      && (out.Created? ==>
            && out.accessId == draws(k) && IsAsAsked(p, ttl, out.grant, input, draws(k), now)
            && next == store[p.sha256(draws(k)) := out.grant])
  {
    hide Trim, IsToken, FieldChecks, IsMaterial, WellFormed, ResolveExpiresAt, ParseMaterial, FindToken;
    k := FirstUnusedDecides(p, draws, store.Keys, 0);
    forall j: nat
      ensures IsToken(draws(j)) <==> WellFormed(draws(j))
    {
      TokensAreWellFormed(draws(j));
    }
    forall j | 0 <= j < k
      ensures WellFormed(draws(j)) && p.sha256(draws(j)) in store
    {
      assert InUse(p, draws, store.Keys, j);
    }
    var t := TimeChecks(ttl, input, draws, now, k);
    FirstOfConcat(t, FieldChecks(p, input));
    FourChecks(t);
    if k < 10 && WellFormed(draws(k)) {
      RecordAnswers(p, ttl, input, draws, now, k);
    }
  }

  /** A store is made with a time to live from one millisecond to an hour; without one it is five minutes. */
  lemma {:induction false} MakingAnswers(option: Option<int>)
    ensures var r := DefaultTtl(option);
      && (r.Ok? <==> option.None? || 1 <= option.value <= 3600000)
      && (r.Ok? ==> r.value == if option.None? then 300000 else option.value)
  {
  }

  // ---------- using, revoking, viewing ----------

  function FindChecks(p: Platform, store: Store, id: string): seq<(bool, GrantError)> {
    [(!WellFormed(id), InvalidId), (p.sha256(id) !in store, NotFound)]
  }

  lemma FirstOfTwo<E>(a: (bool, E), b: (bool, E))
    ensures FirstOf([a, b]) == if a.0 then Some(a.1) else if b.0 then Some(b.1) else None
  {
    assert [a, b][1..] == [b] && [b][1..] == [];
    assert FirstOf([b]) == if b.0 then Some(b.1) else None;
  }

  /**
   * An access is refused for an ill-formed token, an unknown one, a revoked grant and one whose time is over, in
   * this order; the last also removes the grant. Otherwise it counts one more access and notes its time, and that
   * is all that changes.
   */
  lemma {:induction false} AccessAnswers(p: Platform, ttl: nat, store: Store, id: string, now: nat)
    ensures var (next, out) := Step(p, ttl, store, Access(id), now);
      var h := p.sha256(id);
      var refusal := FirstOf(FindChecks(p, store, id) +
        [(h in store && store[h].revokedAt.Some?, AlreadyRevoked), (h in store && store[h].expiresAt <= now, Expired)]);
      && (out.Failed? || out.Accessed?)
      && (out.Failed? <==> refusal.Some?) && (out.Failed? ==> Some(out.error) == refusal)
      && (out.Failed? ==> next == if out.error == Expired then store - {h} else store)
      && (out.Accessed? ==>
            && h in store && out.grant == store[h].(accessCount := store[h].accessCount + 1,
                lastAccessedAt := Some(now))
            && next == store[h := out.grant])
  {
    hide IsToken, WellFormed;
    TokensAreWellFormed(id);
    var h := p.sha256(id);
    var t, u := FindChecks(p, store, id),
      [(h in store && store[h].revokedAt.Some?, AlreadyRevoked), (h in store && store[h].expiresAt <= now, Expired)];
    FirstOfConcat(t, u);
    FirstOfTwo(t[0], t[1]);
    FirstOfTwo(u[0], u[1]);
    assert t == [t[0], t[1]] && u == [u[0], u[1]];
  }

  /** A revocation is refused for an ill-formed or unknown token only; it keeps the time of the first one. */
  lemma {:induction false} RevokingAnswers(p: Platform, ttl: nat, store: Store, id: string, now: nat)
    ensures var (next, out) := Step(p, ttl, store, Revoke(id), now);
      var h := p.sha256(id);
      var refusal := FirstOf(FindChecks(p, store, id));
      && (out.Failed? || out.Revoked?)
      && (out.Failed? <==> refusal.Some?) && (out.Failed? ==> Some(out.error) == refusal && next == store)
      && (out.Revoked? ==>
            && h in store && out.grant.revokedAt ==
                Some(if store[h].revokedAt.Some? then store[h].revokedAt.value else now)
            && out.grant.(revokedAt := None) == store[h].(revokedAt := None)
            && next == store[h := out.grant])
  {
    hide IsToken, WellFormed;
    TokensAreWellFormed(id);
    var t := FindChecks(p, store, id);
    FirstOfTwo(t[0], t[1]);
    assert t == [t[0], t[1]];
  }

  /** A view shows everything of a grant but its token's hash, its target and where its content lies. */
  predicate Shows(view: SafeView, g: Grant) {
    && view.resourceAccessId == g.resourceAccessId && view.sessionId == g.sessionId
    && view.resourceId == g.resourceId && view.participantId == g.participantId && view.exposure == g.exposure
    && view.createdAt == g.createdAt && view.expiresAt == g.expiresAt && view.revokedAt == g.revokedAt
    && view.accessCount == g.accessCount && view.lastAccessedAt == g.lastAccessedAt
    && (g.material.Redirect? <==> view.content == None)
    && (g.material.Content? ==> view.content == Some((g.material.mime, g.material.sizeBytes, g.material.hash)))
  }

  /** Viewing needs a well-formed, known token, shows the grant as it is, revoked or over, and changes nothing. */
  lemma {:induction false} ViewingAnswers(p: Platform, ttl: nat, store: Store, id: string, now: nat)
    ensures var (next, out) := Step(p, ttl, store, View(id), now);
      var refusal := FirstOf(FindChecks(p, store, id));
      && next == store && (out.Failed? || out.Viewed?)
      && (out.Failed? <==> refusal.Some?) && (out.Failed? ==> Some(out.error) == refusal)
      && (out.Viewed? ==> p.sha256(id) in store && Shows(out.view, store[p.sha256(id)]))
  {
    hide IsToken, WellFormed;
    TokensAreWellFormed(id);
    var t := FindChecks(p, store, id);
    FirstOfTwo(t[0], t[1]);
    assert t == [t[0], t[1]];
  }
}
