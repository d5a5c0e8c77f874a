/**
 * The lease that keeps one daemon running on a store: a shared lock row and the processes that acquire,
 * renew and release it. One SQLite transaction or statement is one atomic step.
 */
module ProcessLock {
  import opened Text

  datatype Row = Row(ownerId: string, acquiredAt: nat, heartbeatAt: nat, expiresAt: nat)

  datatype LockError = HeldByAnother | NotAcquired | LostBeforeHeartbeat | DatabaseClosed | InvalidDurations

  /** A process's own view: what its fields say, not what the row says. */
  datatype Proc = Proc(acquired: bool, isOpen: bool)

  /** The shared row, the acting process and the outcome after one step. */
  datatype Step = Step(row: Option<Row>, proc: Proc, outcome: Result<(), LockError>)

  function Acquire(row: Option<Row>, proc: Proc, id: string, ttl: nat, now: nat): Step {
    if !proc.isOpen then Step(row, proc, Err(DatabaseClosed))
    else if row.Some? && row.value.expiresAt > now && row.value.ownerId != id then
      Step(row, proc, Err(HeldByAnother))
    else Step(Some(Row(id, now, now, now + ttl)), proc.(acquired := true), Ok(()))
  }

  function Heartbeat(row: Option<Row>, proc: Proc, id: string, ttl: nat, now: nat): Step {
    if !proc.acquired then Step(row, proc, Err(NotAcquired))
    else if row.None? || row.value.ownerId != id then
      Step(row, proc.(acquired := false), Err(LostBeforeHeartbeat))
    else Step(Some(row.value.(heartbeatAt := now, expiresAt := now + ttl)), proc, Ok(()))
  }

  function Release(row: Option<Row>, proc: Proc, id: string): Step {
    if !proc.isOpen then Step(row, proc, Ok(()))
    else
      var kept := if proc.acquired && row.Some? && row.value.ownerId == id then None else row;
      Step(kept, Proc(false, false), Ok(()))
  }

  /** The options the constructor accepts. */
  function CheckDurations(ttlMs: int, heartbeatMs: int): (r: Result<(nat, nat), LockError>)
    ensures r.Ok? <==> 0 < heartbeatMs < ttlMs
  {
    if ttlMs <= 0 || heartbeatMs <= 0 then Err(InvalidDurations)
    else if heartbeatMs >= ttlMs then Err(InvalidDurations)
    else Ok((ttlMs, heartbeatMs))
  }

  // ---------- the objects ----------

  class LockTable {
    var row: Option<Row>

    constructor ()
      ensures row == None
    {
      row := None;
    }
  }

  class DaemonProcessLock {
    const table: LockTable
    const ownerId: string
    const ttlMs: nat
    const heartbeatMs: nat
    var acquired: bool
    var isOpen: bool
    var heartbeatRunning: bool

    ghost function View(): Proc
      reads this
    {
      Proc(acquired, isOpen)
    }

    constructor (table: LockTable, ownerId: string, ttlMs: int, heartbeatMs: int)
      requires CheckDurations(ttlMs, heartbeatMs).Ok?
      ensures this.table == table && this.ownerId == ownerId
      ensures this.ttlMs == ttlMs && this.heartbeatMs == heartbeatMs && this.heartbeatMs < this.ttlMs
      ensures View() == Proc(false, true) && !heartbeatRunning
    {
      this.table := table;
      this.ownerId := ownerId;
      this.ttlMs := ttlMs;
      this.heartbeatMs := heartbeatMs;
      acquired, isOpen, heartbeatRunning := false, true, false;
    }

    /** Takes the row when there is none, when it has expired, or when it is this owner's already. */
    method AcquireLock(now: nat) returns (r: Result<(), LockError>)
      modifies this`acquired, table
      ensures Step(table.row, View(), r) == Acquire(old(table.row), old(View()), ownerId, ttlMs, now)
    {
      if !isOpen {
        return Err(DatabaseClosed);
      }
      var existing := table.row;
      if existing.Some? && existing.value.expiresAt > now && existing.value.ownerId != ownerId {
        return Err(HeldByAnother);
      }
      table.row := Some(Row(ownerId, now, now, now + ttlMs));
      acquired := true;
      return Ok(());
    }

    method StartHeartbeat() returns (r: Result<(), LockError>)
      modifies this`heartbeatRunning
      ensures r == if acquired then Ok(()) else Err(NotAcquired)
      ensures heartbeatRunning == (acquired || old(heartbeatRunning))
    {
      if !acquired {
        return Err(NotAcquired);
      }
      heartbeatRunning := true;
      return Ok(());
    }

    /** Renews the row if it still names this owner, expired or not; otherwise gives the lease up. */
    method SendHeartbeat(now: nat) returns (r: Result<(), LockError>)
      modifies this`acquired, this`heartbeatRunning, table
      ensures Step(table.row, View(), r) == Heartbeat(old(table.row), old(View()), ownerId, ttlMs, now)
      ensures heartbeatRunning == (old(heartbeatRunning) && r != Err(LostBeforeHeartbeat))
    {
      if !acquired {
        return Err(NotAcquired);
      }
      var changes := 0;
      if table.row.Some? && table.row.value.ownerId == ownerId {
        table.row := Some(table.row.value.(heartbeatAt := now, expiresAt := now + ttlMs));
        changes := 1;
      }
      if changes != 1 {
        acquired := false;
        heartbeatRunning := false;
        return Err(LostBeforeHeartbeat);
      }
      return Ok(());
    }

    /** Deletes the row only if it still names this owner; afterwards the process is closed for good. */
    method ReleaseLock()
      modifies this, table
      ensures Step(table.row, View(), Ok(())) == Release(old(table.row), old(View()), ownerId)
      ensures !heartbeatRunning && !isOpen
    {
      heartbeatRunning := false;
      if !isOpen {
        return;
      }
      if acquired {
        if table.row.Some? && table.row.value.ownerId == ownerId {
          table.row := None;
        }
        acquired := false;
      }
      isOpen := false;
    }
  }

  // ---------- runs of many processes ----------

  /** One event of a run, at the time the shared clock shows. */
  datatype Event = Acquires(id: string, at: nat) | Beats(id: string, at: nat) | Releases(id: string, at: nat)

  /** `renewed` remembers each process's last successful acquire or heartbeat, until it releases. */
  datatype System = System(row: Option<Row>, procs: map<string, Proc>, renewed: map<string, nat>, now: nat)

  type Ttls = map<string, nat>

  /** Any row may be left over from an earlier run; every process is fresh. */
  predicate Initial(s: System) {
    && s.renewed == map[]
    && forall id :: id in s.procs ==> s.procs[id] == Proc(false, true)
  }

  predicate Enabled(s: System, e: Event, ttls: Ttls) {
    e.id in s.procs && e.id in ttls && s.now <= e.at
  }

  function StepOf(s: System, e: Event, ttls: Ttls): Step
    requires Enabled(s, e, ttls)
  {
    match e
    case Acquires(id, at) => Acquire(s.row, s.procs[id], id, ttls[id], at)
    case Beats(id, at) => Heartbeat(s.row, s.procs[id], id, ttls[id], at)
    case Releases(id, at) => Release(s.row, s.procs[id], id)
  }

  function Next(s: System, e: Event, ttls: Ttls): System
    requires Enabled(s, e, ttls)
  {
    var step := StepOf(s, e, ttls);
    var renewed :=
      if e.Releases? then s.renewed - {e.id}
      else if step.outcome.Ok? then s.renewed[e.id := e.at]
      else s.renewed;
    System(step.row, s.procs[e.id := step.proc], renewed, e.at)
  }

  predicate ValidRun(s: System, run: seq<Event>, ttls: Ttls)
    decreases |run|
  {
    run == [] || (Enabled(s, run[0], ttls) && ValidRun(Next(s, run[0], ttls), run[1..], ttls))
  }

  function End(s: System, run: seq<Event>, ttls: Ttls): System
    requires ValidRun(s, run, ttls)
    decreases |run|
  {
    if run == [] then s else End(Next(s, run[0], ttls), run[1..], ttls)
  }

  /** A process that has not released, and whose last renewal is younger than its time to live. */
  predicate Live(s: System, id: string, ttls: Ttls) {
    id in s.renewed && id in ttls && s.now < s.renewed[id] + ttls[id]
  }

  predicate Owns(s: System, id: string) {
    s.row.Some? && s.row.value.ownerId == id
  }

  /** Every live process is the row's owner, with the expiry its last renewal set. */
  ghost predicate Inv(s: System, ttls: Ttls) {
    && (forall id :: id in s.renewed ==> id in s.procs && id in ttls && s.procs[id].isOpen)
    && (forall id :: Live(s, id, ttls) ==>
          Owns(s, id) && s.row.value.expiresAt == s.renewed[id] + ttls[id] && s.procs[id].acquired)
    && (forall id :: id in s.procs && Owns(s, id) && id in s.renewed ==>
          s.row.value.expiresAt == s.renewed[id] + ttls[id])
    && (forall id :: id in s.procs && s.procs[id].acquired ==> id in s.renewed)
  }

  lemma LiveStep(s: System, e: Event, ttls: Ttls, id: string)
    requires Inv(s, ttls) && Enabled(s, e, ttls) && Live(Next(s, e, ttls), id, ttls)
    ensures var t := Next(s, e, ttls);
      Owns(t, id) && t.row.value.expiresAt == t.renewed[id] + ttls[id] && t.procs[id].acquired
  {
    if id != e.id || !StepOf(s, e, ttls).outcome.Ok? {
      // time only moves on, so a process live now was live before, and its row could not be taken
      assert Live(s, id, ttls);
    }
  }

  /** What is recorded of renewals: open processes only, and every process that believes it holds the lock. */
  lemma RecordsStep(s: System, e: Event, ttls: Ttls, id: string)
    requires Inv(s, ttls) && Enabled(s, e, ttls)
    ensures var t := Next(s, e, ttls);
      && (id in t.renewed ==> id in t.procs && id in ttls && t.procs[id].isOpen)
      && (id in t.procs && t.procs[id].acquired ==> id in t.renewed)
  {
  }

  lemma RowStep(s: System, e: Event, ttls: Ttls, id: string)
    requires Inv(s, ttls) && Enabled(s, e, ttls)
    ensures var t := Next(s, e, ttls);
      id in t.procs && Owns(t, id) && id in t.renewed ==> t.row.value.expiresAt == t.renewed[id] + ttls[id]
  {
  }

  lemma {:induction false} InvStep(s: System, e: Event, ttls: Ttls)
    requires Inv(s, ttls) && Enabled(s, e, ttls)
    ensures Inv(Next(s, e, ttls), ttls)
  {
    hide Next, Enabled;
    var t := Next(s, e, ttls);
    forall id: string
      ensures id in t.renewed ==> id in t.procs && id in ttls && t.procs[id].isOpen
      ensures id in t.procs && t.procs[id].acquired ==> id in t.renewed
      ensures id in t.procs && Owns(t, id) && id in t.renewed ==> t.row.value.expiresAt == t.renewed[id] + ttls[id]
    {
      RecordsStep(s, e, ttls, id);
      RowStep(s, e, ttls, id);
    }
    forall id | Live(t, id, ttls)
      ensures Owns(t, id) && t.row.value.expiresAt == t.renewed[id] + ttls[id] && t.procs[id].acquired
    {
      LiveStep(s, e, ttls, id);
    }
  }

  lemma {:induction false} InvRun(s: System, run: seq<Event>, ttls: Ttls)
    requires Inv(s, ttls) && ValidRun(s, run, ttls)
    ensures Inv(End(s, run, ttls), ttls)
    decreases |run|
  {
    if run != [] {
      InvStep(s, run[0], ttls);
      InvRun(Next(s, run[0], ttls), run[1..], ttls);
    }
  }

  /** In every reachable state a live process owns the row, so at most one process holds a live lease. */
  lemma {:induction false} MutualExclusion(s: System, run: seq<Event>, ttls: Ttls)
    requires Initial(s) && ValidRun(s, run, ttls)
    ensures var t := End(s, run, ttls);
      && (forall id :: Live(t, id, ttls) ==> Owns(t, id) && t.now < t.row.value.expiresAt)
      && (forall a, b :: Live(t, a, ttls) && Live(t, b, ttls) ==> a == b)
  {
    InvRun(s, run, ttls);
  }

  /** At most one process believes it holds the lock. */
  ghost predicate FlagsExclusive(s: System) {
    forall p, q :: p in s.procs && q in s.procs && s.procs[p].acquired && s.procs[q].acquired ==> p == q
  }

  /** A process takes a row that is free, expired or its own while another still believes it holds the lock. */
  ghost predicate TakesFromABeliever(s: System, e: Event, ttls: Ttls)
    requires Enabled(s, e, ttls)
  {
    && e.Acquires? && s.procs[e.id].isOpen
    && (s.row.None? || s.row.value.expiresAt <= e.at || Owns(s, e.id))
    && exists p :: p in s.procs && p != e.id && s.procs[p].acquired
  }

  /** One step keeps the flags exclusive exactly when it does not take the row while another believes it holds it. */
  lemma {:induction false} FlagsStayExclusiveIff(s: System, e: Event, ttls: Ttls)
    requires FlagsExclusive(s) && Enabled(s, e, ttls)
    ensures FlagsExclusive(Next(s, e, ttls)) <==> !TakesFromABeliever(s, e, ttls)
  {
    var t := Next(s, e, ttls);
    if TakesFromABeliever(s, e, ttls) {
      var p :| p in s.procs && p != e.id && s.procs[p].acquired;
      assert t.procs[e.id].acquired && t.procs[p].acquired;
    }
  }

  ghost predicate AlwaysExclusive(s: System, run: seq<Event>, ttls: Ttls)
    requires ValidRun(s, run, ttls)
    decreases |run|
  {
    FlagsExclusive(s) && (run != [] ==> AlwaysExclusive(Next(s, run[0], ttls), run[1..], ttls))
  }

  ghost predicate NeverTakesFromABeliever(s: System, run: seq<Event>, ttls: Ttls)
    requires ValidRun(s, run, ttls)
    decreases |run|
  {
    run != [] ==>
      !TakesFromABeliever(s, run[0], ttls) && NeverTakesFromABeliever(Next(s, run[0], ttls), run[1..], ttls)
  }

  /** Over a whole run the flags are exclusive at every point exactly when no step of it is such a take. */
  lemma {:induction false} FlagsAreExclusiveIff(s: System, run: seq<Event>, ttls: Ttls)
    requires FlagsExclusive(s) && ValidRun(s, run, ttls)
    ensures AlwaysExclusive(s, run, ttls) <==> NeverTakesFromABeliever(s, run, ttls)
    decreases |run|
  {
    hide FlagsExclusive, TakesFromABeliever, Next, Enabled;
    if run != [] {
      FlagsStayExclusiveIff(s, run[0], ttls);
      if !TakesFromABeliever(s, run[0], ttls) {
        FlagsAreExclusiveIff(Next(s, run[0], ttls), run[1..], ttls);
      } else {
        NotExclusive(Next(s, run[0], ttls), run[1..], ttls);
      }
    }
  }

  lemma NotExclusive(s: System, run: seq<Event>, ttls: Ttls)
    requires ValidRun(s, run, ttls) && !FlagsExclusive(s)
    ensures !AlwaysExclusive(s, run, ttls)
  {
  }

  lemma FreshFlagsAreExclusive(s: System)
    requires Initial(s)
    ensures FlagsExclusive(s)
  {
  }

  /** Fresh processes, whatever row is left over: the condition decides every run from the start. */
  lemma {:induction false} FlagsFromTheStartIff(s: System, run: seq<Event>, ttls: Ttls)
    requires Initial(s) && ValidRun(s, run, ttls)
    ensures AlwaysExclusive(s, run, ttls) <==> NeverTakesFromABeliever(s, run, ttls)
  {
    hide FlagsExclusive, AlwaysExclusive, NeverTakesFromABeliever;
    FreshFlagsAreExclusive(s);
    FlagsAreExclusiveIff(s, run, ttls);
  }

  /** Only the lease, not the process's own `acquired` flag, is exclusive. */
  lemma {:induction false} AcquiredFlagsAreNotExclusive()
    ensures var ttls: Ttls := map["a" := 10, "b" := 10];
      var s := System(None, map["a" := Proc(false, true), "b" := Proc(false, true)], map[], 0);
      var run := [Acquires("a", 0), Acquires("b", 10)];
      && Initial(s) && ValidRun(s, run, ttls)
      && End(s, run, ttls).procs == map["a" := Proc(true, true), "b" := Proc(true, true)]
  {
    var ttls: Ttls := map["a" := 10, "b" := 10];
    var s := System(None, map["a" := Proc(false, true), "b" := Proc(false, true)], map[], 0);
    assert "a"[0] != "b"[0];
    var one := Next(s, Acquires("a", 0), ttls);
    var two := Next(one, Acquires("b", 10), ttls);
    assert two.procs == map["a" := Proc(true, true), "b" := Proc(true, true)];
    var run := [Acquires("a", 0), Acquires("b", 10)];
    assert run[1..] == [Acquires("b", 10)] && run[1..][1..] == [];
    assert ValidRun(two, [], ttls) && End(two, [], ttls) == two;
    assert ValidRun(one, run[1..], ttls) && End(one, run[1..], ttls) == two;
  }

  /** A step of one process never touches the row of another whose lease is still live. */
  lemma {:induction false} OthersCannotDisplaceALiveHolder(s: System, e: Event, ttls: Ttls, holder: string)
    requires Inv(s, ttls) && Enabled(s, e, ttls) && e.id != holder
    requires holder in s.renewed && e.at < s.renewed[holder] + ttls[holder]
    ensures Next(s, e, ttls).row == s.row
    ensures e.Acquires? ==> StepOf(s, e, ttls).outcome.Err?
  {
    assert Live(s, holder, ttls);
  }

  /** A failed heartbeat of a process that had renewed means a whole time to live went by since. */
  lemma {:induction false} LostHeartbeatWasLate(s: System, run: seq<Event>, ttls: Ttls, id: string, at: nat)
    requires Initial(s) && ValidRun(s, run, ttls)
    requires Enabled(End(s, run, ttls), Beats(id, at), ttls)
    requires StepOf(End(s, run, ttls), Beats(id, at), ttls).outcome == Err(LostBeforeHeartbeat)
    ensures var t := End(s, run, ttls);
      id in t.renewed && at >= t.renewed[id] + ttls[id]
  {
    InvRun(s, run, ttls);
    var t := End(s, run, ttls);
    if at < t.renewed[id] + ttls[id] {
      assert Live(t, id, ttls);
    }
  }

  /** The holder renews at gaps of at most `gap`, and never releases. */
  predicate Diligent(s: System, run: seq<Event>, ttls: Ttls, holder: string, gap: nat)
    requires ValidRun(s, run, ttls)
    decreases |run|
  {
    run != [] ==>
      && holder in s.renewed
      && run[0].at <= s.renewed[holder] + gap
      && run[0] != Releases(holder, run[0].at)
      && Diligent(Next(s, run[0], ttls), run[1..], ttls, holder, gap)
  }

  /** No acquire and no heartbeat of the holder fails anywhere in the run. */
  predicate NeverFails(s: System, run: seq<Event>, ttls: Ttls, holder: string)
    requires ValidRun(s, run, ttls)
    decreases |run|
  {
    run != [] ==>
      && (run[0].id == holder ==> StepOf(s, run[0], ttls).outcome.Ok?)
      && NeverFails(Next(s, run[0], ttls), run[1..], ttls, holder)
  }

  /** A holder that keeps to its heartbeat interval is never displaced and no renewal of it fails. */
  lemma {:induction false} DiligentHolderKeepsTheLease(s: System, run: seq<Event>, ttls: Ttls, holder: string, gap: nat)
    requires Inv(s, ttls) && ValidRun(s, run, ttls)
    requires holder in s.renewed && Owns(s, holder) && s.procs[holder].acquired && gap < ttls[holder]
    requires Diligent(s, run, ttls, holder, gap)
    ensures Owns(End(s, run, ttls), holder)
    ensures NeverFails(s, run, ttls, holder)
    decreases |run|
  {
    if run != [] {
      var e := run[0];
      InvStep(s, e, ttls);
      assert Live(s, holder, ttls);
      if e.id != holder {
        OthersCannotDisplaceALiveHolder(s, e, ttls, holder);
      }
      DiligentHolderKeepsTheLease(Next(s, e, ttls), run[1..], ttls, holder, gap);
    }
  }

  // ---------- what each step answers ----------

  /** What a step of one process leaves alone: all other processes and what is known of their renewals. */
  predicate OthersStay(s: System, t: System, id: string) {
    && t.procs.Keys == s.procs.Keys
    && (forall other :: other in s.procs && other != id ==> t.procs[other] == s.procs[other])
    && t.renewed - {id} == s.renewed - {id}
  }

  /**
   * An acquire of an open process succeeds unless another owner's time is not over; the row is then its own and
   * new in every field. A refused acquire changes nothing.
   */
  lemma {:induction false} AcquireAnswers(s: System, id: string, at: nat, ttls: Ttls)
    requires Enabled(s, Acquires(id, at), ttls)
    ensures var r, t := StepOf(s, Acquires(id, at), ttls).outcome, Next(s, Acquires(id, at), ttls);
      && (r == Err(DatabaseClosed) <==> !s.procs[id].isOpen)
      && (r == Err(HeldByAnother) <==>
            s.procs[id].isOpen && s.row.Some? && s.row.value.ownerId != id && at < s.row.value.expiresAt)
      && (r.Err? ==> r.error in {DatabaseClosed, HeldByAnother} && t == s.(now := at))
      && (r.Ok? ==>
            && t.row == Some(Row(id, at, at, at + ttls[id]))
            && t.procs[id] == Proc(true, true) && id in t.renewed && t.renewed[id] == at)
      && OthersStay(s, t, id) && t.now == at
  {
    if StepOf(s, Acquires(id, at), ttls).outcome.Err? {
      assert s.procs[id := s.procs[id]] == s.procs;
    }
  }

  /**
   * A heartbeat succeeds exactly when the process believes it holds the lock and the row still names it, however
   * long ago its time was over. The row keeps its owner and start, and its time to live begins anew.
   */
  lemma {:induction false} HeartbeatAnswers(s: System, id: string, at: nat, ttls: Ttls)
    requires Enabled(s, Beats(id, at), ttls)
    ensures var r, t := StepOf(s, Beats(id, at), ttls).outcome, Next(s, Beats(id, at), ttls);
      && (r.Ok? <==> s.procs[id].acquired && Owns(s, id))
      && (r == Err(NotAcquired) <==> !s.procs[id].acquired)
      && (r == Err(LostBeforeHeartbeat) <==> s.procs[id].acquired && !Owns(s, id))
      && (r.Ok? ==>
            && t.row.Some? && t.row.value.ownerId == id && t.row.value.acquiredAt == s.row.value.acquiredAt
            && t.row.value.heartbeatAt == at && t.row.value.expiresAt == at + ttls[id]
            && t.procs[id] == s.procs[id] && id in t.renewed && t.renewed[id] == at)
      && (r.Err? ==>
            && t.row == s.row && t.renewed == s.renewed
            && t.procs[id] == Proc(false, s.procs[id].isOpen))
      && OthersStay(s, t, id) && t.now == at
  {
  }

  /**
   * A release always succeeds. An open process is closed by it and believes nothing any more, and the row goes
   * exactly when it still names a process that believed it held the lock. A closed process changes nothing.
   */
  lemma {:induction false} ReleaseAnswers(s: System, id: string, at: nat, ttls: Ttls)
    requires Enabled(s, Releases(id, at), ttls)
    ensures var r, t := StepOf(s, Releases(id, at), ttls).outcome, Next(s, Releases(id, at), ttls);
      && r == Ok(())
      && t.procs[id] == (if s.procs[id].isOpen then Proc(false, false) else s.procs[id])
      && t.row == (if s.procs[id] == Proc(true, true) && Owns(s, id) then None else s.row)
      && id !in t.renewed && OthersStay(s, t, id) && t.now == at
  {
  }

  /** Releasing frees the row of its owner and of nobody else, however stale the releasing process is. */
  lemma {:induction false} ReleaseFreesOnlyItsOwn(s: System, e: Event, ttls: Ttls)
    requires Inv(s, ttls) && Enabled(s, e, ttls) && e.Releases?
    ensures !Owns(s, e.id) ==> Next(s, e, ttls).row == s.row
    ensures Live(s, e.id, ttls) ==> Next(s, e, ttls).row == None
  {
  }

  /** A lease that is not renewed can be taken by anyone from the moment it expires. */
  lemma {:induction false} ExpiredLeaseCanBeTaken(s: System, id: string, at: nat, ttls: Ttls)
    requires Enabled(s, Acquires(id, at), ttls) && s.procs[id].isOpen
    ensures StepOf(s, Acquires(id, at), ttls).outcome.Ok? <==>
            s.row.None? || s.row.value.expiresAt <= at || Owns(s, id)
    ensures StepOf(s, Acquires(id, at), ttls).outcome.Ok? && ttls[id] > 0 ==>
              Owns(Next(s, Acquires(id, at), ttls), id) && Live(Next(s, Acquires(id, at), ttls), id, ttls)
  {
  }
}
