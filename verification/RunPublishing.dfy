/** Running the stages of a deliberation and publishing what each of them appended to the event store. */
module RunPublishing {
  import opened Text
  import opened EventBus

  // ---------- the event store ----------

  /** All events in the order they were appended. */
  type EventLog = seq<Event>

  function ListEvents(log: EventLog, sid: string): EventLog {
    if log == [] then [] else (if log[0].sessionId == sid then [log[0]] else []) + ListEvents(log[1..], sid)
  }

  function IdsOf(events: EventLog): set<string> {
    set i | 0 <= i < |events| :: events[i].id
  }

  function EventIds(events: EventLog): seq<string> {
    seq(|events|, i requires 0 <= i < |events| => events[i].id)
  }

  /** What an append-only store promises: ids are not used twice, sequence numbers grow within a session. */
  predicate LogOk(log: EventLog) {
    forall i, j :: 0 <= i < j < |log| ==>
      log[i].id != log[j].id && (log[i].sessionId == log[j].sessionId ==> log[i].sequence < log[j].sequence)
  }

  // ---------- publishing what is new ----------

  function NotIn(events: EventLog, before: set<string>): EventLog {
    if events == [] then []
    else (if events[0].id in before then [] else [events[0]]) + NotIn(events[1..], before)
  }

  function InsertBySequence(e: Event, events: EventLog): EventLog {
    if events == [] || e.sequence <= events[0].sequence then [e] + events
    else [events[0]] + InsertBySequence(e, events[1..])
  }

  function SortBySequence(events: EventLog): EventLog {
    if events == [] then [] else InsertBySequence(events[0], SortBySequence(events[1..]))
  }

  function NewEvents(log: EventLog, sid: string, before: set<string>): EventLog {
    SortBySequence(NotIn(ListEvents(log, sid), before))
  }

  function DeliveredAll(inboxes: Inboxes, b: Bus, events: EventLog): Inboxes
    decreases |events|
  {
    if events == [] then inboxes
    else DeliveredAll(Delivered(inboxes, ListenersOf(b, events[0].sessionId), events[0]), b, events[1..])
  }

  // ---------- what is new, from any log ----------

  /** No event has a lower sequence number than one before it. */
  predicate InSequence(events: EventLog) {
    events == [] || (NoneBelow(events[1..], events[0].sequence) && InSequence(events[1..]))
  }

  predicate NoneBelow(events: EventLog, sequence: nat) {
    forall x :: x in events ==> sequence <= x.sequence
  }

  lemma {:induction false} InsertCounts(e: Event, events: EventLog)
    ensures multiset(InsertBySequence(e, events)) == multiset(events) + multiset{e}
    ensures forall x :: x in InsertBySequence(e, events) <==> x == e || x in events
    decreases |events|
  {
    if events != [] && e.sequence > events[0].sequence {
      InsertCounts(e, events[1..]);
      assert events == [events[0]] + events[1..];
    }
  }

  lemma {:induction false} InsertIsInSequence(e: Event, events: EventLog)
    requires InSequence(events)
    ensures InSequence(InsertBySequence(e, events))
    decreases |events|
  {
    if events != [] {
      if e.sequence <= events[0].sequence {
        assert ([e] + events)[1..] == events;
        assert forall x :: x in events ==> x == events[0] || x in events[1..];
      } else {
        var rest := InsertBySequence(e, events[1..]);
        InsertCounts(e, events[1..]);
        InsertIsInSequence(e, events[1..]);
        assert ([events[0]] + rest)[1..] == rest;
      }
    }
  }

  lemma {:induction false} SortIsInSequence(events: EventLog)
    ensures InSequence(SortBySequence(events)) && multiset(SortBySequence(events)) == multiset(events)
    decreases |events|
  {
    if events != [] {
      SortIsInSequence(events[1..]);
      InsertIsInSequence(events[0], SortBySequence(events[1..]));
      InsertCounts(events[0], SortBySequence(events[1..]));
      assert events == [events[0]] + events[1..];
    }
  }

  /** How often an event is among the session's events whose ids were not there before. */
  function TimesNew(log: EventLog, sid: string, before: set<string>, e: Event): nat {
    if log == [] then 0
    else (if log[0] == e && e.sessionId == sid && e.id !in before then 1 else 0) + TimesNew(log[1..], sid, before, e)
  }

  lemma {:induction false} NotInCounts(log: EventLog, sid: string, before: set<string>, e: Event)
    ensures multiset(NotIn(ListEvents(log, sid), before))[e] == TimesNew(log, sid, before, e)
    decreases |log|
  {
    if log != [] {
      NotInCounts(log[1..], sid, before, e);
      var rest := ListEvents(log[1..], sid);
      if log[0].sessionId == sid {
        assert ([log[0]] + rest)[1..] == rest;
      } else {
        assert [] + rest == rest;
      }
    }
  }

  /**
   * From any log at all: what is new comes in the order of the sequence numbers, each event as often as it is
   * there.
   */
  lemma {:induction false} NewAnswers(log: EventLog, sid: string, before: set<string>, e: Event)
    ensures InSequence(NewEvents(log, sid, before))
    ensures multiset(NewEvents(log, sid, before))[e] == TimesNew(log, sid, before, e)
  {
    SortIsInSequence(NotIn(ListEvents(log, sid), before));
    NotInCounts(log, sid, before, e);
  }

  // ---------- facts about lists of events ----------

  lemma {:induction false} ListEventsConcat(a: EventLog, b: EventLog, sid: string)
    ensures ListEvents(a + b, sid) == ListEvents(a, sid) + ListEvents(b, sid)
    decreases |a|
  {
    if a == [] {
      assert a + b == b;
    } else {
      assert (a + b)[1..] == a[1..] + b;
      ListEventsConcat(a[1..], b, sid);
    }
  }

  lemma {:induction false} ListEventsAre(log: EventLog, sid: string)
    ensures forall e :: e in ListEvents(log, sid) <==> e in log && e.sessionId == sid
    decreases |log|
  {
    if log != [] {
      ListEventsAre(log[1..], sid);
    }
  }

  /** Within a session the store's order is the order of the sequence numbers. */
  lemma {:induction false} ListEventsOk(log: EventLog, sid: string)
    requires LogOk(log)
    ensures LogOk(ListEvents(log, sid))
    decreases |log|
  {
    if log != [] {
      assert LogOk(log[1..]);
      ListEventsOk(log[1..], sid);
      ListEventsAre(log[1..], sid);
      ConsOk(log[0], ListEvents(log[1..], sid), log[1..]);
    }
  }

  lemma ConsOk(e: Event, some: EventLog, all: EventLog)
    requires LogOk([e] + all) && LogOk(some) && forall f :: f in some ==> f in all
    ensures LogOk([e] + some)
  {
    forall j | 0 <= j < |some|
      ensures e.id != some[j].id && (e.sessionId == some[j].sessionId ==> e.sequence < some[j].sequence)
    {
      assert some[j] in some;
      var k :| 0 <= k < |all| && all[k] == some[j];
      assert ([e] + all)[k + 1] == some[j] && ([e] + all)[0] == e;
    }
  }

  lemma {:induction false} NotInConcat(a: EventLog, b: EventLog, before: set<string>)
    ensures NotIn(a + b, before) == NotIn(a, before) + NotIn(b, before)
    decreases |a|
  {
    if a == [] {
      assert a + b == b;
    } else {
      assert (a + b)[1..] == a[1..] + b;
      NotInConcat(a[1..], b, before);
    }
  }

  lemma {:induction false} NotInAll(events: EventLog, before: set<string>)
    requires forall i :: 0 <= i < |events| ==> events[i].id in before
    ensures NotIn(events, before) == []
    decreases |events|
  {
    if events != [] {
      NotInAll(events[1..], before);
    }
  }

  lemma {:induction false} NotInNone(events: EventLog, before: set<string>)
    requires forall i :: 0 <= i < |events| ==> events[i].id !in before
    ensures NotIn(events, before) == events
    decreases |events|
  {
    if events != [] {
      NotInNone(events[1..], before);
      assert events == [events[0]] + events[1..];
    }
  }

  lemma {:induction false} SortedAlready(events: EventLog)
    requires forall i, j :: 0 <= i < j < |events| ==> events[i].sequence <= events[j].sequence
    ensures SortBySequence(events) == events
    decreases |events|
  {
    if events != [] {
      SortedAlready(events[1..]);
      assert events == [events[0]] + events[1..];
      if |events| > 1 {
        assert events[1..][0] == events[1];
      }
    }
  }

  lemma SessionIsSorted(log: EventLog, sid: string)
    requires LogOk(log)
    ensures SortBySequence(ListEvents(log, sid)) == ListEvents(log, sid)
  {
    ListEventsOk(log, sid);
    ListEventsAre(log, sid);
    var events := ListEvents(log, sid);
    forall i, j | 0 <= i < j < |events|
      ensures events[i].sequence <= events[j].sequence
    {
      assert events[i] in events && events[j] in events;
    }
    SortedAlready(events);
  }

  lemma LogParts(a: EventLog, b: EventLog)
    requires LogOk(a + b)
    ensures LogOk(a) && LogOk(b)
    ensures forall e, f :: e in a && f in b ==> e.id != f.id
  {
    assert forall i :: 0 <= i < |a| ==> (a + b)[i] == a[i];
    assert forall i :: 0 <= i < |b| ==> (a + b)[|a| + i] == b[i];
    forall e, f | e in a && f in b
      ensures e.id != f.id
    {
      var i :| 0 <= i < |a| && a[i] == e;
      var j :| 0 <= j < |b| && b[j] == f;
      assert (a + b)[i].id != (a + b)[|a| + j].id;
    }
  }

  /** What is new since `before` was taken is exactly what was appended since, in the store's order. */
  lemma {:induction false} NewIsAppended(log: EventLog, more: EventLog, sid: string)
    requires LogOk(log + more)
    ensures NewEvents(log + more, sid, IdsOf(ListEvents(log, sid))) == ListEvents(more, sid)
  {
    var seen, added := ListEvents(log, sid), ListEvents(more, sid);
    var before := IdsOf(seen);
    ListEventsConcat(log, more, sid);
    NotInConcat(seen, added, before);
    NotInAll(seen, before);
    LogParts(log, more);
    ListEventsAre(log, sid);
    ListEventsAre(more, sid);
    forall i | 0 <= i < |added|
      ensures added[i].id !in before
    {
      assert added[i] in more;
      forall j | 0 <= j < |seen|
        ensures seen[j].id != added[i].id
      {
        assert seen[j] in log;
      }
    }
    NotInNone(added, before);
    SessionIsSorted(more, sid);
    assert [] + added == added;
  }

  /** A listener of the session gets all the events, each once, in order. */
  lemma {:induction false} ListenerGetsAll(inboxes: Inboxes, b: Bus, events: EventLog, sid: string, l: Listener)
    requires l in ListenersOf(b, sid) && NoDuplicates(ListenersOf(b, sid))
    requires forall i :: 0 <= i < |events| ==> events[i].sessionId == sid
    ensures InboxOf(DeliveredAll(inboxes, b, events), l) == InboxOf(inboxes, l) + events
    decreases |events|
  {
    hide Delivered, InboxOf, ListenersOf, NoDuplicates;
    if events != [] {
      DeliveredOnce(inboxes, ListenersOf(b, sid), events[0], l);
      ListenerGetsAll(Delivered(inboxes, ListenersOf(b, sid), events[0]), b, events[1..], sid, l);
      assert events == [events[0]] + events[1..];
    }
  }

  // ---------- the stages of one run ----------

  datatype StageKind = SealedDivergence | Extraction | ProposalReview | EvidenceCheck | CandidateRepair | Finalization

  const STAGES: seq<StageKind> := [SealedDivergence, Extraction, ProposalReview, EvidenceCheck, CandidateRepair,
      Finalization]

  datatype StageOutcome = Threw | Done(executionStatus: string, roundStatus: Option<string>)

  /**
   * What happens while a stage executes: the events it and others append, and the bus as it is
   * afterwards, since others may subscribe and unsubscribe meanwhile.
   */
  datatype StageRun = StageRun(appended: EventLog, bus: Bus, outcome: StageOutcome)

  type StartRequest = map<StageKind, StageRun>

  datatype StageResult = StageResult(kind: StageKind, executionStatus: string, roundStatus: Option<string>,
      eventIds: seq<string>)

  datatype Reply = Failure | Unavailable | Response(stages: seq<StageResult>, stopped: bool, stopReason: Option<string>)

  datatype Progress = Progress(log: EventLog, inboxes: Inboxes, reply: Reply)

  function StopStatuses(kind: StageKind): seq<string> {
    match kind
    case SealedDivergence => ["waiting_for_participants", "waiting_for_reveal", "failed"]
    case Extraction => ["waiting_for_generators", "failed"]
    case ProposalReview => ["waiting_for_reviewers", "failed"]
    case EvidenceCheck => ["waiting_for_generators", "failed"]
    case CandidateRepair => ["waiting_for_generators", "failed"]
    case Finalization => ["waiting_for_final_candidate", "waiting_for_auditors", "failed"]
  }

  function StopReason(kind: StageKind, executionStatus: string, roundStatus: Option<string>): Option<string> {
    if executionStatus == "already_running" then Some("already_running")
    else if roundStatus.Some? && roundStatus.value in StopStatuses(kind) then roundStatus
    else None
  }

  function RunStages(kinds: seq<StageKind>, request: StartRequest, sid: string, log: EventLog, inboxes: Inboxes,
                     stages: seq<StageResult>): Progress
    decreases |kinds|
  {
    if kinds == [] then Progress(log, inboxes, Response(stages, false, None))
    else if kinds[0] !in request then RunStages(kinds[1..], request, sid, log, inboxes, stages)
    else
      var run := request[kinds[0]];
      var news := NewEvents(log + run.appended, sid, IdsOf(ListEvents(log, sid)));
      var received := DeliveredAll(inboxes, run.bus, news);
      match run.outcome
      case Threw => Progress(log + run.appended, received, Failure)
      case Done(executionStatus, roundStatus) =>
        var results := stages + [StageResult(kinds[0], executionStatus, roundStatus, EventIds(news))];
        var reason := StopReason(kinds[0], executionStatus, roundStatus);
        if reason.Some? then Progress(log + run.appended, received, Response(results, true, reason))
        else RunStages(kinds[1..], request, sid, log + run.appended, received, results)
  }

  class DaemonRunService {
    var eventStore: EventLog
    const eventBus: DaemonEventBus

    constructor (log: EventLog, bus: DaemonEventBus)
      ensures eventStore == log && eventBus == bus
    {
      eventStore, eventBus := log, bus;
    }

    /** The stage itself: it appends, and meanwhile the bus may change. */
    method Execute(run: StageRun)
      modifies this`eventStore, eventBus`sets, eventBus`current
      ensures eventStore == old(eventStore) + run.appended && eventBus.View() == run.bus
    {
      eventStore := eventStore + run.appended;
      eventBus.sets, eventBus.current := run.bus.sets, run.bus.current;
    }

    method PublishNewEvents(sid: string, before: set<string>) returns (eventIds: seq<string>)
      modifies eventBus`inboxes
      ensures eventIds == EventIds(NewEvents(eventStore, sid, before))
      ensures eventBus.inboxes == DeliveredAll(old(eventBus.inboxes), eventBus.View(),
          NewEvents(eventStore, sid, before))
    {
      var news := NewEvents(eventStore, sid, before);
      var i := 0;
      while i < |news|
        invariant 0 <= i <= |news|
        invariant DeliveredAll(old(eventBus.inboxes), eventBus.View(), news) ==
            DeliveredAll(eventBus.inboxes, eventBus.View(), news[i..])
      {
        assert news[i..][1..] == news[i + 1..];
        eventBus.Publish(news[i]);
        i := i + 1;
      }
      eventIds := EventIds(news);
    }

    /** Publishes what is new whether the stage returns or throws; nothing is returned when it throws. */
    method ExecuteWithEventPublishing(sid: string, run: StageRun) returns (eventIds: Option<seq<string>>)
      modifies this`eventStore, eventBus
      ensures eventStore == old(eventStore) + run.appended && eventBus.View() == run.bus
      ensures var news := NewEvents(eventStore, sid, IdsOf(ListEvents(old(eventStore), sid)));
        && eventBus.inboxes == DeliveredAll(old(eventBus.inboxes), run.bus, news)
        && eventIds == if run.outcome.Threw? then None else Some(EventIds(news))
    {
      var beforeEventIds := IdsOf(ListEvents(eventStore, sid));
      Execute(run);
      var ids := PublishNewEvents(sid, beforeEventIds);
      eventIds := if run.outcome.Threw? then None else Some(ids);
    }

    /** Whether the components of every requested stage are there. */
    method ComponentsAvailable(request: StartRequest, available: set<StageKind>) returns (ok: bool)
      ensures ok <==> forall kind :: kind in request ==> kind in available
    {
      var i := 0;
      while i < |STAGES|
        invariant 0 <= i <= |STAGES|
        invariant forall k :: 0 <= k < i ==> (STAGES[k] in request ==> STAGES[k] in available)
      {
        if STAGES[i] in request && STAGES[i] !in available {
          return false;
        }
        i := i + 1;
      }
      forall kind | kind in request
        ensures kind in available
      {
        EveryStageIsListed(kind);
      }
      return true;
    }

    /** Nothing is run, appended or published when a requested component is missing. */
    method StartRun(sid: string, request: StartRequest, available: set<StageKind>) returns (reply: Reply)
      modifies this`eventStore, eventBus
      ensures (exists kind :: kind in request && kind !in available) ==>
                reply == Unavailable && eventStore == old(eventStore)
                && eventBus.View() == old(eventBus.View()) && eventBus.inboxes == old(eventBus.inboxes)
      ensures (forall kind :: kind in request ==> kind in available) ==>
                Progress(eventStore, eventBus.inboxes, reply) ==
                RunStages(STAGES, request, sid, old(eventStore), old(eventBus.inboxes), [])
    {
      hide NewEvents, StopReason;
      var ok := ComponentsAvailable(request, available);
      if !ok {
        return Unavailable;
      }
      var stages: seq<StageResult> := [];
      var stopped := false;
      var stopReason: Option<string> := None;
      var i := 0;
      while i < |STAGES|
        invariant 0 <= i <= |STAGES|
        invariant stopped == stopReason.Some?
        invariant RunStages(STAGES, request, sid, old(eventStore), old(eventBus.inboxes), []) ==
                  if stopped then Progress(eventStore, eventBus.inboxes, Response(stages, true, stopReason))
                  else RunStages(STAGES[i..], request, sid, eventStore, eventBus.inboxes, stages)
      {
        var kind := STAGES[i];
        assert STAGES[i..][1..] == STAGES[i + 1..] && STAGES[i..][0] == kind;
        if !stopped && kind in request {
          var run := request[kind];
          var eventIds := ExecuteWithEventPublishing(sid, run);
          if eventIds.None? {
            return Failure;
          }
          stages := stages + [StageResult(kind, run.outcome.executionStatus, run.outcome.roundStatus, eventIds.value)];
          stopReason := StopReason(kind, run.outcome.executionStatus, run.outcome.roundStatus);
          stopped := stopReason.Some?;
        }
        i := i + 1;
      }
      reply := Response(stages, stopped, stopReason);
    }
  }

  lemma EveryStageIsListed(kind: StageKind)
    ensures exists k :: 0 <= k < |STAGES| && STAGES[k] == kind
  {
    var k := match kind
      case SealedDivergence => 0
      case Extraction => 1
      case ProposalReview => 2
      case EvidenceCheck => 3
      case CandidateRepair => 4
      case Finalization => 5;
    assert STAGES[k] == kind;
  }

  // ---------- what one run publishes ----------

  /** The requested stages in their order, up to the first that throws or gives a reason to stop. */
  function Executed(kinds: seq<StageKind>, request: StartRequest): seq<StageRun>
    decreases |kinds|
  {
    if kinds == [] then []
    else if kinds[0] !in request then Executed(kinds[1..], request)
    else [request[kinds[0]]] + if Ends(kinds[0], request[kinds[0]]) then [] else Executed(kinds[1..], request)
  }

  predicate Ends(kind: StageKind, run: StageRun) {
    run.outcome.Threw? || StopReason(kind, run.outcome.executionStatus, run.outcome.roundStatus).Some?
  }

  function AllAppended(runs: seq<StageRun>): EventLog {
    if runs == [] then [] else runs[0].appended + AllAppended(runs[1..])
  }

  function AllIds(stages: seq<StageResult>): seq<string> {
    if stages == [] then [] else stages[0].eventIds + AllIds(stages[1..])
  }

  predicate HearsAll(runs: seq<StageRun>, sid: string, l: Listener) {
    forall i :: 0 <= i < |runs| ==> l in ListenersOf(runs[i].bus, sid) && NoDuplicates(ListenersOf(runs[i].bus, sid))
  }

  lemma {:induction false} AllIdsConcat(a: seq<StageResult>, b: seq<StageResult>)
    ensures AllIds(a + b) == AllIds(a) + AllIds(b)
    decreases |a|
  {
    if a == [] {
      assert a + b == b;
    } else {
      assert (a + b)[1..] == a[1..] + b;
      AllIdsConcat(a[1..], b);
    }
  }

  lemma IdsConcat(a: EventLog, b: EventLog)
    ensures EventIds(a + b) == EventIds(a) + EventIds(b)
  {
  }

  lemma OneResult(r: StageResult)
    ensures AllIds([r]) == r.eventIds
  {
    assert [r][1..] == [];
    assert r.eventIds + [] == r.eventIds;
  }

  lemma NothingMore(sid: string)
    ensures AllAppended([]) == [] && ListEvents([], sid) == [] && EventIds([]) == []
  {
  }

  lemma EndsWhen(kind: StageKind, run: StageRun)
    ensures Ends(kind, run) <==>
      (run.outcome.Threw? || StopReason(kind, run.outcome.executionStatus, run.outcome.roundStatus).Some?)
  {
  }

  /** One stage: what is published is what it appended, and what is left is there for the next. */
  lemma OneStage(run: StageRun, rest: seq<StageRun>, sid: string, log: EventLog, inboxes: Inboxes, l: Listener)
    requires LogOk(log + AllAppended([run] + rest))
    ensures AllAppended([run] + rest) == run.appended + AllAppended(rest)
    ensures log + AllAppended([run] + rest) == log + run.appended + AllAppended(rest)
    ensures ListEvents(AllAppended([run] + rest), sid) ==
        ListEvents(run.appended, sid) + ListEvents(AllAppended(rest), sid)
    ensures NewEvents(log + run.appended, sid, IdsOf(ListEvents(log, sid))) == ListEvents(run.appended, sid)
    ensures HearsAll([run] + rest, sid, l) ==>
      && HearsAll(rest, sid, l)
      && InboxOf(DeliveredAll(inboxes, run.bus, ListEvents(run.appended, sid)), l) ==
         InboxOf(inboxes, l) + ListEvents(run.appended, sid)
  {
    hide NewEvents, DeliveredAll, InboxOf, ListenersOf, LogOk, NoDuplicates, ListEvents;
    var runs := [run] + rest;
    assert runs[0] == run && runs[1..] == rest;
    ConcatAssoc(log, run.appended, AllAppended(rest));
    LogParts(log + run.appended, AllAppended(rest));
    NewIsAppended(log, run.appended, sid);
    ListEventsConcat(run.appended, AllAppended(rest), sid);
    ListEventsAre(run.appended, sid);
    if HearsAll(runs, sid, l) {
      assert l in ListenersOf(runs[0].bus, sid);
      ListenerGetsAll(inboxes, run.bus, ListEvents(run.appended, sid), sid, l);
      forall i | 0 <= i < |rest|
        ensures l in ListenersOf(rest[i].bus, sid) && NoDuplicates(ListenersOf(rest[i].bus, sid))
      {
        assert runs[i + 1] == rest[i];
      }
    }
  }

  /**
   * A run appends what its executed stages append; a listener subscribed throughout gets exactly the
   * session's events among them, each once and in order, also those of a stage that throws; and when
   * the run returns, the stages' id lists, one after the other, are the ids of exactly those events.
   */
  lemma {:induction false} RunPublishesWhatItAppends(
      kinds: seq<StageKind>, request: StartRequest, sid: string, log: EventLog, inboxes: Inboxes,
      stages: seq<StageResult>, l: Listener)
    requires LogOk(log + AllAppended(Executed(kinds, request)))
    ensures var p := RunStages(kinds, request, sid, log, inboxes, stages);
      var added := AllAppended(Executed(kinds, request));
      && p.log == log + added
      && (HearsAll(Executed(kinds, request), sid, l) ==>
          InboxOf(p.inboxes, l) == InboxOf(inboxes, l) + ListEvents(added, sid))
      && (p.reply.Response? ==> AllIds(p.reply.stages) == AllIds(stages) + EventIds(ListEvents(added, sid)))
    decreases |kinds|
  {
    hide NewEvents, DeliveredAll, InboxOf, ListenersOf, Ends, StopReason;
    if kinds != [] {
      if kinds[0] !in request {
        RunPublishesWhatItAppends(kinds[1..], request, sid, log, inboxes, stages, l);
      } else {
        var run := request[kinds[0]];
        var last := Ends(kinds[0], run);
        var rest := if last then [] else Executed(kinds[1..], request);
        assert Executed(kinds, request) == [run] + rest;
        OneStage(run, rest, sid, log, inboxes, l);
        EndsWhen(kinds[0], run);
        var news := ListEvents(run.appended, sid);
        if !run.outcome.Threw? {
          var result := StageResult(kinds[0], run.outcome.executionStatus, run.outcome.roundStatus, EventIds(news));
          AllIdsConcat(stages, [result]);
          OneResult(result);
          IdsConcat(news, ListEvents(AllAppended(rest), sid));
          ConcatAssoc(AllIds(stages), EventIds(news), EventIds(ListEvents(AllAppended(rest), sid)));
          if !last {
            RunPublishesWhatItAppends(kinds[1..], request, sid, log + run.appended,
                DeliveredAll(inboxes, run.bus, news),
                                      stages + [result], l);
          }
        }
        ConcatAssoc(InboxOf(inboxes, l), news, ListEvents(AllAppended(rest), sid));
        NothingMore(sid);
      }
    } else {
      NothingMore(sid);
      assert log + [] == log && EventIds([]) == [] && AllIds(stages) + [] == AllIds(stages);
      assert InboxOf(inboxes, l) + [] == InboxOf(inboxes, l);
    }
  }

  /** So no event id is in two stages' lists, or twice in one. */
  lemma {:induction false} RunIdsAreDistinct(
      kinds: seq<StageKind>, request: StartRequest, sid: string, log: EventLog, inboxes: Inboxes)
    requires LogOk(log + AllAppended(Executed(kinds, request)))
    ensures var reply := RunStages(kinds, request, sid, log, inboxes, []).reply;
      reply.Response? ==> NoRepeats(AllIds(reply.stages))
  {
    hide *;
    var added := AllAppended(Executed(kinds, request));
    RunPublishesWhatItAppends(kinds, request, sid, log, inboxes, [], 0);
    NoIds(EventIds(ListEvents(added, sid)));
    LogParts(log, added);
    ListEventsOk(added, sid);
    DistinctIds(ListEvents(added, sid));
  }

  lemma NoIds(ids: seq<string>)
    ensures AllIds([]) + ids == ids
  {
  }

  predicate NoRepeats(ids: seq<string>) {
    forall i, j :: 0 <= i < j < |ids| ==> ids[i] != ids[j]
  }

  lemma DistinctIds(events: EventLog)
    requires LogOk(events)
    ensures NoRepeats(EventIds(events))
  {
  }

  function Requested(kinds: seq<StageKind>, request: StartRequest): seq<StageKind> {
    if kinds == [] then [] else (if kinds[0] in request then [kinds[0]] else []) + Requested(kinds[1..], request)
  }

  function KindsOf(stages: seq<StageResult>): seq<StageKind> {
    seq(|stages|, i requires 0 <= i < |stages| => stages[i].kind)
  }

  function ReasonOf(s: StageResult): Option<string> {
    StopReason(s.kind, s.executionStatus, s.roundStatus)
  }

  predicate NoReasons(stages: seq<StageResult>) {
    forall i :: 0 <= i < |stages| ==> ReasonOf(stages[i]) == None
  }

  /**
   * The requested stages run in their order; the run stops at the first that gives a reason, and the
   * reason in the reply is that stage's; if none does, every requested stage has run.
   */
  lemma {:induction false} RunStopsAtFirstReason(
      kinds: seq<StageKind>, request: StartRequest, sid: string, log: EventLog, inboxes: Inboxes,
      stages: seq<StageResult>)
    requires NoReasons(stages)
    ensures var reply := RunStages(kinds, request, sid, log, inboxes, stages).reply;
      reply.Response? ==>
        && KindsOf(reply.stages) <= KindsOf(stages) + Requested(kinds, request)
        && reply.stopped == reply.stopReason.Some?
        && (reply.stopReason.None? ==>
              NoReasons(reply.stages) && KindsOf(reply.stages) == KindsOf(stages) + Requested(kinds, request))
        && (reply.stopReason.Some? ==>
              && reply.stages != [] && NoReasons(reply.stages[..|reply.stages| - 1])
              && ReasonOf(reply.stages[|reply.stages| - 1]) == reply.stopReason)
    decreases |kinds|
  {
    hide NewEvents, DeliveredAll, StopReason;
    if kinds == [] {
      assert KindsOf(stages) + [] == KindsOf(stages);
    } else if kinds[0] !in request {
      RunStopsAtFirstReason(kinds[1..], request, sid, log, inboxes, stages);
      assert [] + Requested(kinds[1..], request) == Requested(kinds[1..], request);
    } else {
      var run := request[kinds[0]];
      var news := NewEvents(log + run.appended, sid, IdsOf(ListEvents(log, sid)));
      if run.outcome.Done? {
        var result := StageResult(kinds[0], run.outcome.executionStatus, run.outcome.roundStatus, EventIds(news));
        var results := stages + [result];
        assert KindsOf(results) == KindsOf(stages) + [kinds[0]];
        assert results[..|results| - 1] == stages;
        ConcatAssoc(KindsOf(stages), [kinds[0]], Requested(kinds[1..], request));
        if ReasonOf(result).None? {
          RunStopsAtFirstReason(kinds[1..], request, sid, log + run.appended, DeliveredAll(inboxes, run.bus, news),
              results);
        }
      }
    }
  }
}
