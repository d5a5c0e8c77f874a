/** What a run of stages answers: which stages run, in which order, what ends the run, and with which reason. */
module RunAnswers {
  import opened Text
  import opened EventBus
  import opened RunPublishing

  /** Sealed divergence first, then extraction, review, evidence check, repair and finalization. */
  function Place(kind: StageKind): nat {
    match kind
    case SealedDivergence => 0
    case Extraction => 1
    case ProposalReview => 2
    case EvidenceCheck => 3
    case CandidateRepair => 4
    case Finalization => 5
  }

  /** A round that failed, or that waits for somebody its stage needs. */
  predicate Halts(kind: StageKind, status: string) {
    || status == "failed"
    || (status in ["waiting_for_participants", "waiting_for_reveal"] && kind == SealedDivergence)
    || (status == "waiting_for_generators" && (kind == Extraction || kind == EvidenceCheck || kind == CandidateRepair))
    || (status == "waiting_for_reviewers" && kind == ProposalReview)
    || (status in ["waiting_for_final_candidate", "waiting_for_auditors"] && kind == Finalization)
  }

  /** A stage somebody else runs already, or whose round halts, ends the run. */
  predicate EndsRun(kind: StageKind, executionStatus: string, roundStatus: Option<string>) {
    executionStatus == "already_running" || (roundStatus.Some? && Halts(kind, roundStatus.value))
  }

  lemma StopsWhen(kind: StageKind, executionStatus: string, roundStatus: Option<string>)
    ensures StopReason(kind, executionStatus, roundStatus) ==
      if !EndsRun(kind, executionStatus, roundStatus) then None
      else if executionStatus == "already_running" then Some("already_running") else roundStatus
    ensures StopReason(kind, executionStatus, roundStatus).Some? <==> EndsRun(kind, executionStatus, roundStatus)
  {
  }

  /** No requested stage with an earlier place throws or ends the run. */
  predicate Reached(request: StartRequest, kind: StageKind) {
    kind in request && forall other :: other in request && Place(other) < Place(kind) ==> GoesOn(request, other)
  }

  predicate GoesOn(request: StartRequest, kind: StageKind)
    requires kind in request
  {
    request[kind].outcome.Done?
    && !EndsRun(kind, request[kind].outcome.executionStatus, request[kind].outcome.roundStatus)
  }

  predicate Lists(stages: seq<StageResult>, kind: StageKind) {
    exists i :: 0 <= i < |stages| && stages[i].kind == kind
  }

  predicate InPlace(stages: seq<StageResult>) {
    forall i, j :: 0 <= i < j < |stages| ==> Place(stages[i].kind) < Place(stages[j].kind)
  }

  /** The statuses of each stage are those it ended with. */
  predicate TellsOf(request: StartRequest, stages: seq<StageResult>) {
    forall i :: 0 <= i < |stages| ==>
      stages[i].kind in request
      && request[stages[i].kind].outcome == Done(stages[i].executionStatus, stages[i].roundStatus)
  }

  /**
   * A run fails exactly when a stage it reaches throws. Otherwise it lists exactly the stages it reaches, in their
   * places, with the statuses they ended with; it is stopped exactly when one of them ends it, and the reason is
   * "already_running" if that is its execution status and else the status of its round.
   */
  predicate Answered(request: StartRequest, reply: Reply) {
    && !reply.Unavailable?
    && (reply.Failure? <==> exists kind :: Reached(request, kind) && request[kind].outcome.Threw?)
    && (reply.Response? ==>
          && (forall kind :: Lists(reply.stages, kind) <==> Reached(request, kind))
          && InPlace(reply.stages) && TellsOf(request, reply.stages)
          && reply.stopped == reply.stopReason.Some?
          && (reply.stopped <==> exists kind :: Reached(request, kind) && !GoesOn(request, kind))
          && (forall kind :: Reached(request, kind) && !GoesOn(request, kind) ==>
                reply.stopReason == if request[kind].outcome.executionStatus == "already_running"
                                    then Some("already_running") else request[kind].outcome.roundStatus))
  }

  lemma PlacesAreStages(i: nat, kind: StageKind)
    ensures |STAGES| == 6 && Place(kind) < 6
    ensures i < 6 ==> (Place(kind) == i <==> kind == STAGES[i])
  {
  }

  /** The stages before place `i` have run, and all of them went on. */
  predicate RanUpTo(request: StartRequest, stages: seq<StageResult>, i: nat) {
    && (forall kind :: kind in request && Place(kind) < i ==> GoesOn(request, kind))
    && (forall kind :: Lists(stages, kind) <==> kind in request && Place(kind) < i)
    && InPlace(stages) && TellsOf(request, stages)
  }

  lemma OneMoreListed(stages: seq<StageResult>, r: StageResult, kind: StageKind)
    ensures Lists(stages + [r], kind) <==> Lists(stages, kind) || r.kind == kind
  {
    if Lists(stages, kind) {
      var i :| 0 <= i < |stages| && stages[i].kind == kind;
      assert (stages + [r])[i].kind == kind;
    }
    if r.kind == kind {
      assert (stages + [r])[|stages|].kind == kind;
    }
  }

  lemma StageIsAdded(request: StartRequest, stages: seq<StageResult>, i: nat, r: StageResult)
    requires RanUpTo(request, stages, i) && i < 6 && r.kind == STAGES[i] && r.kind in request
    requires request[r.kind].outcome == Done(r.executionStatus, r.roundStatus)
    ensures InPlace(stages + [r]) && TellsOf(request, stages + [r])
    ensures forall kind :: Lists(stages + [r], kind) <==> kind in request && Place(kind) <= i
  {
    hide GoesOn;
    var all := stages + [r];
    forall kind: StageKind
      ensures Lists(all, kind) <==> kind in request && Place(kind) <= i
    {
      OneMoreListed(stages, r, kind);
      PlacesAreStages(i, kind);
    }
    PlacesAreStages(i, r.kind);
    forall j | 0 <= j < |stages|
      ensures Place(stages[j].kind) < i
    {
      assert Lists(stages, stages[j].kind);
    }
  }

  /** Where a stage does not go on, no later one is reached. */
  lemma ReachedUpTo(request: StartRequest, i: nat)
    requires i < 6 && STAGES[i] in request && !GoesOn(request, STAGES[i])
    requires forall kind :: kind in request && Place(kind) < i ==> GoesOn(request, kind)
    ensures forall kind :: Reached(request, kind) <==> kind in request && Place(kind) <= i
    ensures forall kind :: Reached(request, kind) && !GoesOn(request, kind) ==> kind == STAGES[i]
  {
    hide GoesOn;
    forall kind: StageKind
      ensures Place(kind) == i <==> kind == STAGES[i]
    {
      PlacesAreStages(i, kind);
    }
  }

  lemma RunEnds(request: StartRequest, stages: seq<StageResult>, i: nat, r: StageResult)
    requires RanUpTo(request, stages, i) && i < 6 && r.kind == STAGES[i] && r.kind in request
    requires request[r.kind].outcome == Done(r.executionStatus, r.roundStatus)
    requires EndsRun(r.kind, r.executionStatus, r.roundStatus)
    ensures Answered(request, Response(stages + [r], true, if r.executionStatus == "already_running"
        then Some("already_running") else r.roundStatus))
  {
    hide Lists, InPlace, TellsOf, Place;
    StageIsAdded(request, stages, i, r);
    ReachedUpTo(request, i);
    PlacesAreStages(i, r.kind);
    assert Reached(request, r.kind) && !GoesOn(request, r.kind);
  }

  lemma RunThrows(request: StartRequest, i: nat)
    requires i < 6 && STAGES[i] in request && request[STAGES[i]].outcome.Threw?
    requires forall kind :: kind in request && Place(kind) < i ==> GoesOn(request, kind)
    ensures Answered(request, Failure)
  {
    hide Place;
    PlacesAreStages(i, STAGES[i]);
    assert Reached(request, STAGES[i]);
  }

  lemma RunCompletes(request: StartRequest, stages: seq<StageResult>)
    requires RanUpTo(request, stages, 6)
    ensures Answered(request, Response(stages, false, None))
  {
    hide Lists, InPlace, TellsOf, EndsRun;
    forall kind: StageKind
      ensures Place(kind) < 6
    {
      PlacesAreStages(0, kind);
    }
  }

  lemma {:induction false} RunFrom(
      i: nat, request: StartRequest, sid: string, log: EventLog, inboxes: Inboxes, stages: seq<StageResult>)
    requires i <= 6 && RanUpTo(request, stages, i) && |STAGES| == 6
    ensures Answered(request, RunStages(STAGES[i..], request, sid, log, inboxes, stages).reply)
    decreases 6 - i
  {
    hide NewEvents, DeliveredAll, StopReason, EndsRun, STAGES, Place, InPlace, TellsOf, Lists, Answered;
    forall kind: StageKind
      ensures Place(kind) < 6 && (i < 6 ==> (Place(kind) == i <==> kind == STAGES[i]))
    {
      PlacesAreStages(i, kind);
    }
    if i < 6 {
      var kind := STAGES[i];
      assert STAGES[i..][0] == kind && STAGES[i..][1..] == STAGES[i + 1..];
      if kind !in request {
        RunFrom(i + 1, request, sid, log, inboxes, stages);
      } else if request[kind].outcome.Done? {
        var run := request[kind];
        var news := NewEvents(log + run.appended, sid, IdsOf(ListEvents(log, sid)));
        var result := StageResult(kind, run.outcome.executionStatus, run.outcome.roundStatus, EventIds(news));
        StopsWhen(kind, run.outcome.executionStatus, run.outcome.roundStatus);
        StageIsAdded(request, stages, i, result);
        if GoesOn(request, kind) {
          RunFrom(i + 1, request, sid, log + run.appended, DeliveredAll(inboxes, run.bus, news), stages + [result]);
        } else {
          RunEnds(request, stages, i, result);
        }
      } else {
        RunThrows(request, i);
      }
    } else {
      RunCompletes(request, stages);
    }
  }

  /** What StartRun promises of its reply, for every request whose components are there. */
  lemma {:induction false} RunIsAnswered(request: StartRequest, sid: string, log: EventLog, inboxes: Inboxes)
    ensures Answered(request, RunStages(STAGES, request, sid, log, inboxes, []).reply)
  {
    hide Answered, STAGES;
    PlacesAreStages(0, Extraction);
    assert STAGES[0..] == STAGES;
    RunFrom(0, request, sid, log, inboxes, []);
  }
}
