/**
 No worker is ever stuck: in every reachable state each execution can be run to its end by steps of
 its own, whatever the Agent answers and whatever was written meanwhile.
 */
module Progress {
  import opened Wrappers
  import opened Billing
  import opened Schema
  import opened Evolution
  import opened TaskQueue
  import opened Lifecycle
  import opened Commerce
  import opened PlanChange
  import opened World
  import opened History
  import opened Fencing
  import opened SagaRuns
  import opened Reachable

  // ---------- what an execution has when it gets somewhere ----------

  /** Actions that read once more after their first fence check, and check again. */
  predicate ChecksTwice(a: Action) {
    a in {Destroy, Purge, Reinstall}
  }

  predicate ReadyOk(x: Exec) {
    && (!x.phase.Claimed? ==> x.ticket.Some?)
    && (x.phase in {Planned, Cleared, Applied} ==> x.seen.Some?)
    && (x.phase.Planned? ==> x.plan.Some?)
    && (x.phase.Applied? && ChecksTwice(x.ticket.value.action) ==> x.plan.Some?)
  }

  ghost predicate WorkersOk(w: World) {
    forall e :: e in w.execs ==> ReadyOk(w.execs[e])
  }

  lemma LeaseKeepsWorkers(w: World, s: LeaseStep)
    requires WorkersOk(w)
    ensures WorkersOk(ApplyLease(w, s))
  {
    hide QueueOnly, Evolves, LeaseExpired, OwnsLease, CanClaim, SameTickets, SameRenewals, FinishedStatus;
    hide Advance, RegisterNode, ClaimTask, RenewTaskLease, RenewInstanceLock, RecoverExpiredLease, FinishTask;
    hide ReleaseInstanceLock;
  }

  lemma ExecKeepsWorkers(w: World, s: ExecStep)
    requires WorkersOk(w)
    ensures WorkersOk(ApplyExec(w, s))
  {
    hide EvolvesQuietly, WriteDestroyed, WritePurged, CanWriteDestroyed, CanWritePurged, MayCallAgent, PurgeDue;
    hide PlanInForce, SameTickets, SameRenewals, ReportRuntime, CanReport, MayReport, FenceStates;
  }

  lemma SettleKeepsWorkers(w: World, e: Token, ids: seq<OrderId>)
    requires WorkersOk(w)
    ensures WorkersOk(ApplySettleExec(w, e, ids)) && WorkersOk(ApplyCompensateExec(w, e))
  {
    hide BooksOnly, CompletePlanChange, CompleteCompensation, CanCompensate, SameTickets, SameRenewals;
  }

  lemma SagaKeepsWorkers(w: World, s: SagaStep)
    requires WorkersOk(w)
    ensures WorkersOk(ApplySaga(w, s))
  {
    hide BooksOnly, OpenChange, RequestCancel, FailChange, Block, SameTickets, SameRenewals, FailsChange, MarksChange;
    hide ApplySettleExec, ApplyCompensateExec, ActivateOrders;
    match s
    case SettleExec(e, ids) => SettleKeepsWorkers(w, e, ids);
    case CompensateExec(e) => SettleKeepsWorkers(w, e, []);
    case _ =>
  }

  lemma StepKeepsWorkers(w: World, s: Step)
    requires WorkersOk(w)
    ensures WorkersOk(Apply(w, s))
  {
    hide ApplyLease, ApplyDesk, ApplyExec, ApplySaga, ApplyRecon, ApplyShop, ApplyLife;
    match s
    case OfLease(a) => LeaseKeepsWorkers(w, a);
    case OfExec(x) => ExecKeepsWorkers(w, x);
    case OfSaga(g) => SagaKeepsWorkers(w, g);
    case OfDesk(d) => DeskExecs(w, d);
    case OfRecon(r) => ReconExecs(w, r);
    case OfLife(l) => LifeExecs(w, l);
    case OfShop(h) => ShopExecs(w, h);
  }

  lemma {:induction false} RunKeepsWorkers(w: World, steps: seq<Step>)
    requires WorkersOk(w)
    ensures WorkersOk(Run(w, steps))
    decreases |steps|
  {
    hide Apply, WorkersOk;
    if steps != [] {
      StepKeepsWorkers(w, steps[0]);
      RunKeepsWorkers(Apply(w, steps[0]), steps[1..]);
    }
  }

  // ---------- the worker's program ----------

  /** The statement or request the execution makes next, if the Agent gives this answer. */
  function NextStep(x: Exec, e: Token, answer: Outcome): Step
    requires ReadyOk(x)
  {
    match x.phase
    case Claimed => OfLease(Reload(e))
    case Loaded => if x.seen.None? then OfExec(ReadInstance(e)) else OfExec(Fence(e))
    case Planned => OfExec(Fence(e))
    case Cleared =>
      if ChecksTwice(x.ticket.value.action) && x.plan.None? then OfExec(ReadPlan(e)) else OfExec(CallAgent(e, answer))
    case Applied => Commit(x.ticket.value.action, e)
    case Transitioned => OfSaga(ActivateExec(e))
    case Unsettled => OfSaga(BlockExec(e))
    case Returned(_) => OfLease(Finish(e))
    case Accepted(_, _) => OfLease(Unlock(e))
    case Unlocked(_, _) => OfSaga(MarkObserving(e))
    case Marked(_) | Closed => OfSaga(FailDeployment(e))
  }

  /** What is written after the Agent's last answer. */
  function Commit(a: Action, e: Token): Step {
    match a
    case Destroy => OfExec(CommitDestroy(e))
    case Purge => OfExec(CommitPurge(e))
    case Resize => OfSaga(SettleExec(e, []))
    case CompensateResize => OfSaga(CompensateExec(e))
    case HostAccess => OfExec(ReturnApplied(e, true))
    case _ => OfExec(Report(e))
  }

  /** How far the execution is from its end. */
  function Distance(x: Exec): nat {
    match x.phase
    case Claimed => 14
    case Loaded => if x.seen.None? then 13 else 12
    case Cleared => if x.ticket.Some? && ChecksTwice(x.ticket.value.action) && x.plan.None? then 11 else 9
    case Planned => 10
    case Applied => 8
    case Transitioned | Unsettled => 7
    case Returned(_) => 6
    case Accepted(_, _) => 5
    case Unlocked(_, _) => 4
    case Marked(_) => 3
    case Closed => 0
  }

  ghost predicate Nearer(w: World, v: World, e: Token)
    requires e in w.execs
  {
    e in v.execs && v.execs[e].task == w.execs[e].task && Distance(v.execs[e]) < Distance(w.execs[e])
  }

  lemma LeaseMovesOn(w: World, e: Token, answer: Outcome)
    requires e in w.execs && ReadyOk(w.execs[e]) && w.execs[e].task in w.db.tasks && !w.execs[e].phase.Closed?
    requires NextStep(w.execs[e], e, answer).OfLease?
    ensures Nearer(w, ApplyLease(w, NextStep(w.execs[e], e, answer).a), e)
  {
    hide QueueOnly, Evolves, OwnsLease, SameTickets, SameRenewals, FinishTask, ReleaseInstanceLock;
  }

  lemma ReadsMoveOn(w: World, e: Token)
    requires e in w.execs && ReadyOk(w.execs[e])
    ensures w.execs[e].phase.Loaded? && w.execs[e].seen.None? ==> Nearer(w, ApplyReadInstance(w, e), e)
    ensures w.execs[e].phase.Cleared? && w.execs[e].plan.None? && ChecksTwice(w.execs[e].ticket.value.action) ==>
              Nearer(w, ApplyReadPlan(w, e), e)
  {
    hide PurgeDue, PlanInForce, SameTickets, SameRenewals;
  }

  lemma AnswersMoveOn(w: World, e: Token)
    requires e in w.execs && ReadyOk(w.execs[e]) && w.execs[e].phase.Applied?
    requires Reports(w.execs[e].ticket.value.action)
    ensures Nearer(w, ApplyReport(w, e), e)
  {
    hide EvolvesQuietly, SameTickets, SameRenewals, ReportRuntime, CanReport, MayReport;
  }

  lemma CommitsMoveOn(w: World, e: Token)
    requires e in w.execs && ReadyOk(w.execs[e]) && w.execs[e].phase.Applied?
    requires Commit(w.execs[e].ticket.value.action, e).OfExec?
    ensures Nearer(w, ApplyExec(w, Commit(w.execs[e].ticket.value.action, e).x), e)
  {
    hide EvolvesQuietly, WriteDestroyed, WritePurged, CanWriteDestroyed, CanWritePurged, MayCallAgent;
    hide SameTickets, SameRenewals, ApplyReadInstance, ApplyReport, ApplyReadPlan;
    if Reports(w.execs[e].ticket.value.action) {
      AnswersMoveOn(w, e);
    }
  }

  lemma ExecMovesOn(w: World, e: Token, answer: Outcome)
    requires e in w.execs && ReadyOk(w.execs[e])
    requires NextStep(w.execs[e], e, answer).OfExec?
    ensures Nearer(w, ApplyExec(w, NextStep(w.execs[e], e, answer).x), e)
  {
    hide EvolvesQuietly, WriteDestroyed, WritePurged, CanWriteDestroyed, CanWritePurged, MayCallAgent, Commit;
    hide SameTickets, SameRenewals, FenceStates, ApplyReadInstance, ApplyReport, ApplyReadPlan, CommitWith;
    if w.execs[e].phase.Applied? {
      hide ApplyExec;
      CommitsMoveOn(w, e);
    } else {
      ReadsMoveOn(w, e);
    }
  }

  lemma SettlesMoveOn(w: World, e: Token)
    requires e in w.execs && ReadyOk(w.execs[e]) && w.execs[e].phase.Applied?
    ensures w.execs[e].ticket.value.action.Resize? ==> Nearer(w, ApplySettleExec(w, e, []), e)
    ensures w.execs[e].ticket.value.action.CompensateResize? ==> Nearer(w, ApplyCompensateExec(w, e), e)
  {
    hide BooksOnly, CompletePlanChange, CompleteCompensation, CanCompensate, SameTickets, SameRenewals;
  }

  lemma SagaMovesOn(w: World, e: Token, answer: Outcome)
    requires e in w.execs && ReadyOk(w.execs[e]) && !w.execs[e].phase.Closed?
    requires NextStep(w.execs[e], e, answer).OfSaga?
    ensures Nearer(w, ApplySaga(w, NextStep(w.execs[e], e, answer).s), e)
  {
    hide BooksOnly, FailChange, Block, SameTickets, SameRenewals, FailsChange, MarksChange, ActivateOrders;
    hide ApplySettleExec, ApplyCompensateExec;
    if w.execs[e].phase.Applied? {
      SettlesMoveOn(w, e);
    }
  }

  lemma MovesOn(w: World, e: Token, answer: Outcome)
    requires e in w.execs && ReadyOk(w.execs[e]) && w.execs[e].task in w.db.tasks && !w.execs[e].phase.Closed?
    ensures Nearer(w, Apply(w, NextStep(w.execs[e], e, answer)), e)
  {
    hide ApplyLease, ApplyExec, ApplySaga, NextStep;
    var s := NextStep(w.execs[e], e, answer);
    NextIsOwn(w.execs[e], e, answer);
    match s
    case OfLease(_) => LeaseMovesOn(w, e, answer);
    case OfExec(_) => ExecMovesOn(w, e, answer);
    case _ => SagaMovesOn(w, e, answer);
  }

  /** A step of the execution's program or of its renew loop. */
  predicate StepOf(s: Step, e: Token) {
    match s
    case OfLease(Reload(f)) => f == e
    case OfLease(RenewRow(f)) => f == e
    case OfLease(RenewLock(f, _)) => f == e
    case OfLease(Finish(f)) => f == e
    case OfLease(Unlock(f)) => f == e
    case OfExec(x) => x.exec == e
    case OfSaga(SettleExec(f, _)) => f == e
    case OfSaga(CompensateExec(f)) => f == e
    case OfSaga(BlockExec(f)) => f == e
    case OfSaga(MarkObserving(f)) => f == e
    case OfSaga(FailDeployment(f)) => f == e
    case OfSaga(ActivateExec(f)) => f == e
    case _ => false
  }

  /** A step of the program itself, in which the Agent gives no other answer. */
  predicate OwnStep(s: Step, e: Token, answer: Outcome) {
    StepOf(s, e) && (s.OfLease? ==> !s.a.RenewRow? && !s.a.RenewLock?)
    && (s.OfExec? && s.x.CallAgent? ==> s.x.outcome == answer)
  }

  lemma NextIsOwn(x: Exec, e: Token, answer: Outcome)
    requires ReadyOk(x)
    ensures OwnStep(NextStep(x, e, answer), e, answer)
    ensures NextStep(x, e, answer).OfLease? || NextStep(x, e, answer).OfExec? || NextStep(x, e, answer).OfSaga?
  {
  }

  /** The steps are the execution's own, no more than fourteen, and end it. */
  ghost predicate RunsOut(w: World, e: Token, answer: Outcome, own: seq<Step>) {
    |own| <= 14 && (forall k :: 0 <= k < |own| ==> OwnStep(own[k], e, answer))
    && e in Run(w, own).execs && Run(w, own).execs[e].phase.Closed?
  }

  lemma {:induction false} RunsToItsEnd(w: World, e: Token, answer: Outcome) returns (own: seq<Step>)
    requires WorkersOk(w) && e in w.execs && w.execs[e].task in w.db.tasks
    ensures |own| <= Distance(w.execs[e]) && (forall k :: 0 <= k < |own| ==> OwnStep(own[k], e, answer))
    ensures e in Run(w, own).execs && Run(w, own).execs[e].phase.Closed?
    decreases Distance(w.execs[e])
  {
    hide Apply, NextStep, OwnStep, Evolves;
    if w.execs[e].phase.Closed? {
      own := [];
    } else {
      var s := NextStep(w.execs[e], e, answer);
      MovesOn(w, e, answer);
      NextIsOwn(w.execs[e], e, answer);
      StepKeepsWorkers(w, s);
      TasksStay(w, s);
      var rest := RunsToItsEnd(Apply(w, s), e, answer);
      own := [s] + rest;
      assert own[0] == s && own[1..] == rest;
    }
  }

  lemma TasksStay(w: World, s: Step)
    ensures w.db.tasks.Keys <= Apply(w, s).db.tasks.Keys
  {
    hide Apply;
    StepEvolves(w, s);
    forall t | t in w.db.tasks ensures t in Apply(w, s).db.tasks {
    }
  }

  lemma Starting(now: Instant)
    ensures FenceInv(Genesis(now)) && WorkersOk(Genesis(now))
  {
  }

  lemma TaskIsKnown(w: World, e: Token)
    requires FenceInv(w) && e in w.execs
    ensures w.execs[e].task in w.db.tasks
  {
    hide TicketOk, TokensOk, ReconsOk, LatestOk;
  }

  /**
   In every reachable state, whatever the Agent answers from there on, each execution can be brought
   to its end by at most fourteen steps of its own.
   */
  lemma NoWorkerIsStuck(now: Instant, steps: seq<Step>, e: Token, answer: Outcome)
    requires e in Run(Genesis(now), steps).execs
    ensures exists own :: RunsOut(Run(Genesis(now), steps), e, answer, own)
  {
    hide Run, WorkersOk, OwnStep, FenceInv;
    Starting(now);
    RunKeepsFence(Genesis(now), steps);
    RunKeepsWorkers(Genesis(now), steps);
    TaskIsKnown(Run(Genesis(now), steps), e);
    var own := RunsToItsEnd(Run(Genesis(now), steps), e, answer);
    assert RunsOut(Run(Genesis(now), steps), e, answer, own);
  }

  // ---------- the order of the program ----------

  /** The point of its program at which the execution takes the step, and what it must have by then. */
  predicate InTurn(x: Exec, s: Step) {
    match s
    case OfLease(Reload(_)) => x.phase.Claimed?
    case OfLease(RenewRow(_)) => x.ticket.Some? && x.renewal.Waiting?
    case OfLease(RenewLock(_, _)) => x.ticket.Some? && x.renewal.BetweenStatements?
    case OfLease(Finish(_)) => x.ticket.Some? && x.phase.Returned?
    case OfLease(Unlock(_)) => x.ticket.Some? && x.phase.Accepted?
    case OfExec(ReadInstance(_)) => x.ticket.Some? && x.phase.Loaded? && x.seen.None?
    case OfExec(Fence(_)) => x.ticket.Some? && x.phase in {Loaded, Planned, Cleared, Applied} && x.seen.Some?
    case OfExec(ReadPlan(_)) =>
      x.ticket.Some? && x.phase.Cleared? && x.plan.None? && x.ticket.value.action in {Destroy, Purge, Reinstall}
    case OfExec(CallAgent(_, _)) =>
      x.ticket.Some? && x.phase.Cleared?
      && (x.ticket.value.action in {Destroy, Purge, Reinstall} ==> x.plan.Some?)
    case OfSaga(BlockExec(_)) => x.ticket.Some? && x.phase.Unsettled?
    case OfSaga(MarkObserving(_)) => x.ticket.Some? && x.phase.Unlocked?
    case OfSaga(FailDeployment(_)) => x.ticket.Some? && x.phase.Marked?
    case OfSaga(ActivateExec(_)) => x.ticket.Some? && x.phase.Transitioned?
    case OfExec(_) | OfSaga(_) => x.ticket.Some? && x.phase.Applied? && Writes(x.ticket.value.action, s)
    case _ => false
  }

  /** The write that belongs to the action. */
  predicate Writes(a: Action, s: Step) {
    match s
    case OfExec(CommitDestroy(_)) => a == Destroy
    case OfExec(CommitPurge(_)) => a == Purge
    case OfExec(ReturnApplied(_, _)) => a == HostAccess
    case OfExec(Report(_)) => a in {Create, RetryDeploy, Start, Stop, Restart, Update, Reinstall}
    case OfSaga(SettleExec(_, _)) => a == Action.Resize
    case OfSaga(CompensateExec(_)) => a == CompensateResize
    case _ => false
  }

  lemma LeaseInTurn(w: World, s: LeaseStep, e: Token)
    requires StepOf(OfLease(s), e) && (e in w.execs ==> !InTurn(w.execs[e], OfLease(s)))
    ensures ApplyLease(w, s) == w
  {
    hide QueueOnly, Evolves, OwnsLease, SameTickets, SameRenewals, FinishedStatus, HasLockToken;
    hide RenewTaskLease, RenewInstanceLock, FinishTask, ReleaseInstanceLock;
  }

  lemma ExecInTurn(w: World, s: ExecStep)
    requires s.exec in w.execs ==> !InTurn(w.execs[s.exec], OfExec(s))
    ensures ApplyExec(w, s) == w
  {
    hide EvolvesQuietly, WriteDestroyed, WritePurged, CanWriteDestroyed, CanWritePurged, MayCallAgent, PurgeDue;
    hide PlanInForce, SameTickets, SameRenewals, ReportRuntime, CanReport, MayReport, FenceStates;
  }

  lemma SagaInTurn(w: World, s: SagaStep, e: Token)
    requires StepOf(OfSaga(s), e) && (e in w.execs ==> !InTurn(w.execs[e], OfSaga(s)))
    ensures ApplySaga(w, s) == w
  {
    hide BooksOnly, FailChange, Block, SameTickets, SameRenewals, FailsChange, MarksChange, ActivateOrders;
    hide CompletePlanChange, CompleteCompensation, CanCompensate;
  }

  /** Nothing happens out of turn: a step that is not the program's next leaves everything as it was. */
  lemma StepsComeInTurn(w: World, s: Step, e: Token)
    requires StepOf(s, e) && (e in w.execs ==> !InTurn(w.execs[e], s))
    ensures Apply(w, s) == w
  {
    hide ApplyLease, ApplyExec, ApplySaga, InTurn;
    match s
    case OfLease(a) => LeaseInTurn(w, a, e);
    case OfExec(x) => ExecInTurn(w, x);
    case OfSaga(g) => SagaInTurn(w, g, e);
  }

  /** Nor does a reconcile do anything out of turn. */
  lemma ReconcilesComeInTurn(w: World, s: ReconStep)
    requires !s.StartRecon?
    requires s.recon in w.recons ==>
               var phase := w.recons[s.recon].phase;
               !(match s
                 case Inspect(_, _) => phase.Inspecting?
                 case Decide(_) => phase.Saw?
                 case SettleRecon(_, _) => phase.Resumed?
                 case BlockRecon(_) => phase.SettleFailed?
                 case CloseRecon(_) => phase.Closing?
                 case UnlockRecon(_) => phase.Unlocking?)
    ensures ApplyRecon(w, s) == w
  {
    hide BooksOnly, QueueOnly, CompletePlanChange, FailChange, MarkBlocked, ResumeBlocked, RecordObservation;
    hide CloseReviewed, ReleaseInstanceLock, Resumable, CanStartRecon, SameRows;
  }

  // ---------- reconciles ----------

  /** What a reconcile does next, if the inspection sees these resources, or nothing at all. */
  function NextOfRecon(p: ReconPhase, r: int, seen: Option<Resources>): ReconStep {
    match p
    case Inspecting => Inspect(r, seen)
    case Saw(_) => Decide(r)
    case Resumed(_) => SettleRecon(r, [])
    case SettleFailed => BlockRecon(r)
    case Closing(_) => CloseRecon(r)
    case Unlocking | ReconDone => UnlockRecon(r)
  }

  function ReconDistance(p: ReconPhase): nat {
    match p
    case Inspecting => 5
    case Saw(_) => 4
    case Resumed(_) => 3
    case SettleFailed => 1
    case Closing(_) => 2
    case Unlocking => 1
    case ReconDone => 0
  }

  ghost predicate ReconNearer(w: World, v: World, r: int)
    requires r in w.recons
  {
    r in v.recons && v.recons[r].change == w.recons[r].change
    && ReconDistance(v.recons[r].phase) < ReconDistance(w.recons[r].phase)
  }

  lemma ReconMovesOn(w: World, r: int, seen: Option<Resources>)
    requires r in w.recons && w.recons[r].change in w.db.changes && !w.recons[r].phase.ReconDone?
    ensures ReconNearer(w, ApplyRecon(w, NextOfRecon(w.recons[r].phase, r, seen)), r)
  {
    hide BooksOnly, QueueOnly, CompletePlanChange, FailChange, MarkBlocked, ResumeBlocked, RecordObservation;
    hide CloseReviewed, ReleaseInstanceLock, Resumable, CanStartRecon, SameRows;
  }

  predicate OwnReconStep(s: Step, r: int, seen: Option<Resources>) {
    s.OfRecon? && s.r.recon == r && !s.r.StartRecon? && (s.r.Inspect? ==> s.r.seen == seen)
  }

  /** The steps are the reconcile's own, no more than five, and end it. */
  ghost predicate ReconRunsOut(w: World, r: int, seen: Option<Resources>, own: seq<Step>) {
    |own| <= 5 && (forall k :: 0 <= k < |own| ==> OwnReconStep(own[k], r, seen))
    && r in Run(w, own).recons && Run(w, own).recons[r].phase.ReconDone?
  }

  lemma {:induction false} ReconRunsToItsEnd(w: World, r: int, seen: Option<Resources>) returns (own: seq<Step>)
    requires r in w.recons && w.recons[r].change in w.db.changes
    ensures |own| <= ReconDistance(w.recons[r].phase)
    ensures forall k :: 0 <= k < |own| ==> OwnReconStep(own[k], r, seen)
    ensures r in Run(w, own).recons && Run(w, own).recons[r].phase.ReconDone?
    decreases ReconDistance(w.recons[r].phase)
  {
    hide ApplyRecon, Evolves, ApplyLease, ApplyDesk, ApplyExec, ApplySaga, ApplyShop, ApplyLife;
    if w.recons[r].phase.ReconDone? {
      own := [];
    } else {
      var s := OfRecon(NextOfRecon(w.recons[r].phase, r, seen));
      ReconMovesOn(w, r, seen);
      ChangesStay(w, s);
      var rest := ReconRunsToItsEnd(Apply(w, s), r, seen);
      own := [s] + rest;
      assert own[0] == s && own[1..] == rest;
    }
  }

  lemma ChangesStay(w: World, s: Step)
    ensures w.db.changes.Keys <= Apply(w, s).db.changes.Keys
  {
    hide Apply;
    StepEvolves(w, s);
    forall c | c in w.db.changes ensures c in Apply(w, s).db.changes {
    }
  }

  lemma ChangeIsKnown(w: World, r: int)
    requires FenceInv(w) && Linked(w.db) && r in w.recons
    ensures w.recons[r].change in w.db.changes
  {
    hide TokensOk, ExecsOk, LatestOk;
    assert TicketOk(w.db, w.recons[r].task, w.recons[r].row);
    assert TaskLinked(w.db, w.recons[r].task);
  }

  /** Nor is a reconcile, whatever the inspection sees and even if it sees nothing. */
  lemma NoReconcileIsStuck(now: Instant, steps: seq<Step>, r: int, seen: Option<Resources>)
    requires r in Run(Genesis(now), steps).recons
    ensures exists own :: ReconRunsOut(Run(Genesis(now), steps), r, seen, own)
  {
    hide Run, OwnReconStep, FenceInv, Linked;
    ReachableStatesAreSound(now, steps);
    ChangeIsKnown(Run(Genesis(now), steps), r);
    var own := ReconRunsToItsEnd(Run(Genesis(now), steps), r, seen);
    assert ReconRunsOut(Run(Genesis(now), steps), r, seen, own);
  }
}
