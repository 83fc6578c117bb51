/**
 Every request to the Agent, in every run, follows its own passing fence check.
 */
module Calls {
  import opened Wrappers
  import opened Billing
  import opened Schema
  import opened Evolution
  import opened TaskQueue
  import opened Lifecycle
  import opened Commerce
  import opened PlanChange
  import opened World
  import opened History
  import opened Fencing
  import opened SagaRuns

  predicate Ready(w: World, e: Token) {
    Has(w, e) && w.execs[e].phase.Cleared?
  }

  /** The step is a fence check that the execution passes. */
  predicate Passes(w: World, s: Step, e: Token) {
    s == OfExec(Fence(e)) && Has(w, e) && w.execs[e].seen.Some?
    && MayCallAgent(w.db, TicketOf(w.execs[e]), FenceStates(w.execs[e]))
  }

  /** Whoever is cleared to call was cleared before, or passes the fence now; what it read and holds stays. */
  ghost predicate ComesFrom(w: World, s: Step, v: World) {
    forall e :: Ready(v, e) ==>
      Has(w, e) && v.execs[e].ticket == w.execs[e].ticket && v.execs[e].task == w.execs[e].task
      && v.execs[e].plan == w.execs[e].plan && v.execs[e].seen == w.execs[e].seen
      && (Ready(w, e) || Passes(w, s, e))
  }

  lemma LeaseComesFrom(w: World, s: LeaseStep)
    ensures ComesFrom(w, OfLease(s), ApplyLease(w, s))
  {
    hide QueueOnly, Evolves, LeaseExpired, OwnsLease, CanClaim, SameTickets, SameRenewals, FinishedStatus, MayCallAgent;
    hide Advance, RegisterNode, ClaimTask, RenewTaskLease, RenewInstanceLock, RecoverExpiredLease, FinishTask;
    hide ReleaseInstanceLock;
  }

  lemma ReadInstanceComesFrom(w: World, e: Token)
    ensures ComesFrom(w, OfExec(ReadInstance(e)), ApplyReadInstance(w, e))
  {
    hide SameTickets, SameRenewals, Passes;
  }

  lemma ReadPlanComesFrom(w: World, e: Token)
    ensures ComesFrom(w, OfExec(ReadPlan(e)), ApplyReadPlan(w, e))
  {
    hide PurgeDue, PlanInForce, SameTickets, SameRenewals, Passes;
  }

  lemma ReportComesFrom(w: World, e: Token)
    ensures ComesFrom(w, OfExec(Report(e)), ApplyReport(w, e))
  {
    hide EvolvesQuietly, SameTickets, SameRenewals, ReportRuntime, CanReport, MayReport, Passes;
  }

  lemma CallComesFrom(w: World, s: ExecStep)
    requires !s.ReadInstance? && !s.ReadPlan? && !s.Report?
    ensures ComesFrom(w, OfExec(s), ApplyExec(w, s))
  {
    hide EvolvesQuietly, WriteDestroyed, WritePurged, CanWriteDestroyed, CanWritePurged, MayCallAgent;
    hide SameTickets, SameRenewals, FenceStates;
  }

  lemma ExecComesFrom(w: World, s: ExecStep)
    ensures ComesFrom(w, OfExec(s), ApplyExec(w, s))
  {
    hide ComesFrom, ApplyReadInstance, ApplyReport, ApplyReadPlan, MayCallAgent, FenceStates, CommitWith;
    match s
    case ReadInstance(e) => ReadInstanceComesFrom(w, e);
    case ReadPlan(e) => ReadPlanComesFrom(w, e);
    case Report(e) => ReportComesFrom(w, e);
    case _ => CallComesFrom(w, s);
  }

  lemma SettleComesFrom(w: World, e: Token, ids: seq<OrderId>)
    ensures ComesFrom(w, OfSaga(SettleExec(e, ids)), ApplySettleExec(w, e, ids))
    ensures ComesFrom(w, OfSaga(CompensateExec(e)), ApplyCompensateExec(w, e))
  {
    hide BooksOnly, CompletePlanChange, CompleteCompensation, CanCompensate, SameTickets, SameRenewals, MayCallAgent;
  }

  lemma SagaComesFrom(w: World, s: SagaStep)
    ensures ComesFrom(w, OfSaga(s), ApplySaga(w, s))
  {
    hide BooksOnly, OpenChange, RequestCancel, FailChange, Block, SameTickets, SameRenewals, FailsChange, MarksChange;
    hide ApplySettleExec, ApplyCompensateExec, MayCallAgent, ActivateOrders;
    match s
    case SettleExec(e, ids) => SettleComesFrom(w, e, ids);
    case CompensateExec(e) => SettleComesFrom(w, e, []);
    case _ =>
  }

  lemma StepComesFrom(w: World, s: Step)
    ensures ComesFrom(w, s, Apply(w, s))
  {
    hide ApplyLease, ApplyDesk, ApplyExec, ApplySaga, ApplyRecon, ApplyShop, ApplyLife, MayCallAgent;
    match s
    case OfLease(a) => LeaseComesFrom(w, a);
    case OfExec(x) => ExecComesFrom(w, x);
    case OfSaga(g) => SagaComesFrom(w, g);
    case OfDesk(d) => DeskExecs(w, d);
    case OfRecon(r) => ReconExecs(w, r);
    case OfLife(l) => LifeExecs(w, l);
    case OfShop(h) => ShopExecs(w, h);
  }

  // ---------- what the check asks ----------

  /** What an Agent may be asked to do with an instance in a given status. */
  predicate Suits(a: Action, status: Status) {
    match status
    case Deploying => a in {Create, RetryDeploy}
    case Running => a in {Stop, Update, Restart, Reinstall, Resize, CompensateResize, HostAccess}
    case Stopped => a in {Start, Reinstall, Resize, CompensateResize, HostAccess}
    case DestroyScheduled => a in {Start, Stop, Restart, HostAccess, Destroy}
    case Destroyed => a == Purge
    case DeploymentFailed | Purged => false
  }

  /**
   The rows a check looks at: the task and its lease, the instance, its lock, its generation and its
   status, the node and, on a user's own node, its control device.
   */
  predicate RowsAdmit(db: Db, x: Exec) {
    && x.ticket.Some? && x.ticket.value.lease.Some?
    && x.task in db.tasks && x.ticket.value.instance in db.instances
    && var row, i, token := db.tasks[x.task], db.instances[x.ticket.value.instance], x.ticket.value.lease.value.token;
       && row.status == TaskRunning && row.lease.Some? && row.lease.value.token == token
       && db.now < row.lease.value.expires
       && i.lock.Some? && i.lock.value.task == x.task && i.lock.value.token == token && db.now < i.lock.value.expires
       && (row.generation == 0 || row.generation == i.generation)
       && i.node in db.nodes && db.nodes[i.node].enabled
       && (db.nodes[i.node].selfHosted ==> db.nodes[i.node].deviceEnabled)
       && (if x.ticket.value.action == Reinstall && x.plan.Some? then Some(i.status) == x.seen
           else Suits(x.ticket.value.action, i.status))
  }

  lemma StatesSuit(x: Exec)
    requires x.ticket.Some? && x.seen.Some?
    ensures forall st :: st in FenceStates(x) <==>
                         if x.ticket.value.action == Reinstall && x.plan.Some? then Some(st) == x.seen
                         else Suits(x.ticket.value.action, st)
  {
    forall st ensures st in ExpectedStates(x.ticket.value.action) <==> Suits(x.ticket.value.action, st) {
      var a := x.ticket.value.action;
      match st
      case Deploying =>
      case _ =>
    }
  }

  /**
   An execution comes to be cleared in a step if and only if the step is its own check, at a point
   of its program where it checks, and the rows admit it.
   */
  lemma ClearedByItsRows(w: World, s: Step, e: Token)
    ensures Ready(Apply(w, s), e) && !Ready(w, e) <==>
              s == OfExec(Fence(e)) && Has(w, e) && w.execs[e].phase in {Loaded, Planned, Applied}
              && w.execs[e].seen.Some? && RowsAdmit(w.db, w.execs[e])
  {
    hide Apply;
    StepComesFrom(w, s);
    if s == OfExec(Fence(e)) {
      CheckOutcome(w, e);
      if Has(w, e) && w.execs[e].seen.Some? {
        StatesSuit(w.execs[e]);
        QueryIsRows(w.db, w.execs[e]);
      }
    }
  }

  lemma QueryIsRows(db: Db, x: Exec)
    requires x.ticket.Some? && x.seen.Some?
    requires forall st :: st in FenceStates(x) <==>
                          if x.ticket.value.action == Reinstall && x.plan.Some? then Some(st) == x.seen
                          else Suits(x.ticket.value.action, st)
    ensures MayCallAgent(db, TicketOf(x), FenceStates(x)) <==> RowsAdmit(db, x)
  {
    hide FenceStates, Suits;
  }

  /** A check that fails ends the execution. */
  lemma CheckOutcome(w: World, e: Token)
    ensures Ready(Apply(w, OfExec(Fence(e))), e) <==>
              if Has(w, e) && w.execs[e].seen.Some? && w.execs[e].phase in {Loaded, Planned, Cleared, Applied}
              then MayCallAgent(w.db, TicketOf(w.execs[e]), FenceStates(w.execs[e]))
              else Ready(w, e)
  {
    hide MayCallAgent, FenceStates;
  }

  // ---------- what a success means ----------

  /** The execution has just come to report success. */
  predicate Succeeded(w: World, v: World, e: Token) {
    e in v.execs && v.execs[e].phase == Returned(Succeeds) && !(e in w.execs && w.execs[e].phase == Returned(Succeeds))
  }

  /** The step is the write that the action is about, and it went through, or there was nothing left to do. */
  ghost predicate Earned(w: World, s: Step, e: Token)
    requires Has(w, e)
  {
    var tk := TicketOf(w.execs[e]);
    match tk.row.action
    case Destroy =>
      (s == OfExec(CommitDestroy(e)) && w.execs[e].plan.Some? && CanWriteDestroyed(w.db, tk, w.execs[e].plan.value))
      || (s == OfExec(ReadPlan(e)) && PlanInForce(w.db, tk).None?)
    case Purge =>
      (s == OfExec(CommitPurge(e)) && CanWritePurged(w.db, tk))
      || (s == OfExec(ReadPlan(e)) && !PurgeDue(w.db, tk.row.instance))
    case Resize => s.OfSaga? && s.s.SettleExec? && s.s.exec == e && !CompletePlanChange(w.db, tk, s.s.ids).Rejected?
    case CompensateResize =>
      s == OfSaga(CompensateExec(e)) && tk.row.change.Some? && CanCompensate(w.db, tk, tk.row.change.value)
    case HostAccess => s == OfExec(ReturnApplied(e, true))
    case a =>
      s == OfExec(Report(e)) && w.execs[e].seen.Some?
      && var seen := w.execs[e].seen.value;
         CanTransition(ReportedFrom(a, seen), ReportedTo(a, seen))
         && (a == Reinstall ==> CanReport(w.db, tk.row.instance, a, seen))
  }

  /** What goes wrong after an applied request: the settlement is refused, or the compensation is not the change's. */
  ghost predicate Refused(w: World, s: Step, e: Token)
    requires Has(w, e)
  {
    var tk := TicketOf(w.execs[e]);
    (tk.row.action == Action.Resize && s.OfSaga? && s.s.SettleExec? && s.s.exec == e
     && CompletePlanChange(w.db, tk, s.s.ids).Rejected?)
    || (tk.row.action == CompensateResize && s == OfSaga(CompensateExec(e))
        && !(tk.row.change.Some? && CanCompensate(w.db, tk, tk.row.change.value)))
  }

  /** The status was written, and the orders of the deployment or of the started instance come next. */
  ghost predicate Moved(w: World, s: Step, e: Token)
    requires Has(w, e)
  {
    var tk := TicketOf(w.execs[e]);
    s == OfExec(Report(e)) && tk.row.action in {Create, RetryDeploy, Start} && w.execs[e].seen.Some?
    && CanReport(w.db, tk.row.instance, tk.row.action, w.execs[e].seen.value)
  }

  /** Success is earned, an applied request was answered with success, and what was read once is not read again. */
  ghost predicate Honest(w: World, s: Step, v: World) {
    forall e :: e in v.execs ==>
      && (Succeeded(w, v, e) ==>
            Has(w, e) && ((w.execs[e].phase.Transitioned? && s == OfSaga(ActivateExec(e))) || Earned(w, s, e)))
      && (v.execs[e].phase.Applied? && !(e in w.execs && w.execs[e].phase.Applied?) ==>
            s == OfExec(CallAgent(e, Succeeds)) && CanCallAgent(w, e))
      && (v.execs[e].phase.Unsettled? && !(e in w.execs && w.execs[e].phase.Unsettled?) ==>
            Has(w, e) && Refused(w, s, e))
      && (v.execs[e].phase.Transitioned? && !(e in w.execs && w.execs[e].phase.Transitioned?) ==>
            Has(w, e) && Moved(w, s, e))
      && (e in w.execs && w.execs[e].seen.Some? ==> v.execs[e].seen == w.execs[e].seen)
      && (e in w.execs && w.execs[e].plan.Some? ==> v.execs[e].plan == w.execs[e].plan)
  }

  lemma ClaimIsHonest(w: World, s: LeaseStep)
    requires s.Claim? || s.Reload?
    ensures Honest(w, OfLease(s), ApplyLease(w, s))
  {
    hide QueueOnly, Evolves, LeaseExpired, OwnsLease, CanClaim, SameTickets, SameRenewals, FinishedStatus, Earned;
    hide Advance, RegisterNode, ClaimTask, RenewTaskLease, RenewInstanceLock, RecoverExpiredLease, FinishTask;
    hide ReleaseInstanceLock, CanCallAgent, Refused, Moved;
  }

  lemma FinishIsHonest(w: World, s: LeaseStep)
    requires s.Finish? || s.Unlock?
    ensures Honest(w, OfLease(s), ApplyLease(w, s))
  {
    hide QueueOnly, Evolves, LeaseExpired, OwnsLease, CanClaim, SameTickets, SameRenewals, FinishedStatus, Earned;
    hide Advance, RegisterNode, ClaimTask, RenewTaskLease, RenewInstanceLock, RecoverExpiredLease, FinishTask;
    hide ReleaseInstanceLock, CanCallAgent, Refused, Moved;
  }

  lemma LeaseIsHonest(w: World, s: LeaseStep)
    ensures Honest(w, OfLease(s), ApplyLease(w, s))
  {
    hide QueueOnly, Evolves, LeaseExpired, OwnsLease, CanClaim, SameTickets, SameRenewals, FinishedStatus, Earned;
    hide Advance, RegisterNode, ClaimTask, RenewTaskLease, RenewInstanceLock, RecoverExpiredLease, FinishTask;
    hide ReleaseInstanceLock, CanCallAgent, Refused, Moved;
    hide ApplyClaim, ApplyReload, ApplyFinish;
    match s
    case Claim(_, _) | Reload(_) => ClaimIsHonest(w, s);
    case Finish(_) | Unlock(_) => FinishIsHonest(w, s);
    case _ =>
  }

  lemma ReadInstanceIsHonest(w: World, e: Token)
    ensures Honest(w, OfExec(ReadInstance(e)), ApplyReadInstance(w, e))
  {
    hide SameTickets, SameRenewals, CanCallAgent, Earned, Refused, Moved;
  }

  lemma ReadPlanIsHonest(w: World, e: Token)
    ensures Honest(w, OfExec(ReadPlan(e)), ApplyReadPlan(w, e))
  {
    hide PurgeDue, PlanInForce, SameTickets, SameRenewals, CanWriteDestroyed, CanWritePurged, CanCompensate;
    hide CompletePlanChange, CanCallAgent, Refused, Moved, CanReport;
  }

  lemma ReportIsHonest(w: World, e: Token)
    ensures Honest(w, OfExec(Report(e)), ApplyReport(w, e))
  {
    hide EvolvesQuietly, SameTickets, SameRenewals, ReportRuntime, CanReport, CanCallAgent, Refused;
    hide CanWriteDestroyed, CanWritePurged, CanCompensate, CompletePlanChange, PurgeDue, PlanInForce;
    hide CanTransition, ReportedFrom, ReportedTo;
  }

  lemma CommitIsHonest(w: World, s: ExecStep)
    requires s.CommitDestroy? || s.CommitPurge?
    ensures Honest(w, OfExec(s), ApplyExec(w, s))
  {
    hide EvolvesQuietly, WriteDestroyed, WritePurged, CanWriteDestroyed, CanWritePurged, MayCallAgent, FenceStates;
    hide SameTickets, SameRenewals, PurgeDue, PlanInForce, CanCompensate, CompletePlanChange, CanCallAgent;
    hide Refused, Moved, CanReport, CanTransition, ReportedFrom, ReportedTo;
  }

  lemma CallIsHonest(w: World, s: ExecStep)
    requires s.Fence? || s.CallAgent? || s.ReturnApplied?
    ensures Honest(w, OfExec(s), ApplyExec(w, s))
  {
    hide EvolvesQuietly, CanWriteDestroyed, CanWritePurged, MayCallAgent, FenceStates, CanCallAgent;
    hide SameTickets, SameRenewals, PurgeDue, PlanInForce, CanCompensate, CompletePlanChange;
    hide Refused, Moved, CanReport, CanTransition, ReportedFrom, ReportedTo;
  }

  lemma ExecIsHonest(w: World, s: ExecStep)
    ensures Honest(w, OfExec(s), ApplyExec(w, s))
  {
    hide Honest, ApplyReadInstance, ApplyReport, ApplyReadPlan, CanCallAgent, MayCallAgent, FenceStates, CommitWith;
    match s
    case ReadInstance(e) => ReadInstanceIsHonest(w, e);
    case ReadPlan(e) => ReadPlanIsHonest(w, e);
    case Report(e) => ReportIsHonest(w, e);
    case CommitDestroy(_) => CommitIsHonest(w, s);
    case CommitPurge(_) => CommitIsHonest(w, s);
    case _ => CallIsHonest(w, s);
  }

  lemma SettleIsHonest(w: World, e: Token, ids: seq<OrderId>)
    ensures Honest(w, OfSaga(SettleExec(e, ids)), ApplySettleExec(w, e, ids))
  {
    hide BooksOnly, CompletePlanChange, CanCompensate, SameTickets, SameRenewals, CanCallAgent;
    hide CanWriteDestroyed, CanWritePurged, PurgeDue, PlanInForce, Moved, CanReport, CanTransition, ReportedFrom;
    hide ReportedTo;
  }

  lemma CompensateIsHonest(w: World, e: Token)
    ensures Honest(w, OfSaga(CompensateExec(e)), ApplyCompensateExec(w, e))
  {
    hide BooksOnly, CompletePlanChange, CompleteCompensation, CanCompensate, SameTickets, SameRenewals, CanCallAgent;
    hide CanWriteDestroyed, CanWritePurged, PurgeDue, PlanInForce, Moved, CanReport, CanTransition, ReportedFrom;
    hide ReportedTo;
  }

  lemma EndingIsHonest(w: World, s: SagaStep)
    requires s.MarkObserving? || s.FailDeployment? || s.BlockExec? || s.ActivateExec?
    ensures Honest(w, OfSaga(s), ApplySaga(w, s))
  {
    hide BooksOnly, FailChange, Block, SameTickets, SameRenewals, FailsChange, MarksChange, ActivateOrders;
    hide Earned, CanCallAgent, Refused, Moved;
  }

  lemma SagaIsHonest(w: World, s: SagaStep)
    ensures Honest(w, OfSaga(s), ApplySaga(w, s))
  {
    hide BooksOnly, OpenChange, RequestCancel, FailChange, Block, SameTickets, SameRenewals;
    hide ApplySettleExec, ApplyCompensateExec, Earned, CanCallAgent, Refused, Moved;
    match s
    case SettleExec(e, ids) => SettleIsHonest(w, e, ids);
    case CompensateExec(e) => CompensateIsHonest(w, e);
    case MarkObserving(_) | FailDeployment(_) | BlockExec(_) | ActivateExec(_) => EndingIsHonest(w, s);
    case _ =>
  }

  /**
   A worker reports success only in the step that commits what its action is about, or that finds the
   plan withdrawn; a request counts as applied only when the Agent answered it with success.
   */
  lemma SuccessIsEarned(w: World, s: Step)
    ensures Honest(w, s, Apply(w, s))
  {
    hide ApplyLease, ApplyDesk, ApplyExec, ApplySaga, ApplyRecon, ApplyShop, ApplyLife, Earned, CanCallAgent, Refused;
    hide Moved;
    match s
    case OfLease(a) => LeaseIsHonest(w, a);
    case OfExec(x) => ExecIsHonest(w, x);
    case OfSaga(g) => SagaIsHonest(w, g);
    case OfDesk(d) => DeskExecs(w, d);
    case OfRecon(r) => ReconExecs(w, r);
    case OfLife(l) => LifeExecs(w, l);
    case OfShop(h) => ShopExecs(w, h);
  }

  // ---------- a revoked node ----------

  predicate DeviceRevoked(db: Db, n: NodeId) {
    n in db.nodes && db.nodes[n].selfHosted && !db.nodes[n].deviceEnabled
  }

  /** Who may call an Agent of the node after the run could so before it. */
  lemma {:induction false} NothingNewIsCleared(w: World, steps: seq<Step>, n: NodeId, e: Token)
    requires DeviceRevoked(w.db, n) && Ready(Run(w, steps), e)
    requires OnNode(Run(w, steps).db, Run(w, steps).execs[e].ticket.value.instance, n)
    ensures Ready(w, e) && w.execs[e].ticket == Run(w, steps).execs[e].ticket
    decreases |steps|
  {
    hide Apply, MayCallAgent, Evolves;
    if steps != [] {
      var v := Apply(w, steps[0]);
      StepEvolves(w, steps[0]);
      RevokedStays(w.db, v.db, n);
      NothingNewIsCleared(v, steps[1..], n, e);
      StepComesFrom(w, steps[0]);
      if Passes(w, steps[0], e) {
        RunEvolves(w, steps);
        RefusedOnNode(w.db, Run(w, steps).db, TicketOf(w.execs[e]), FenceStates(w.execs[e]), n);
      }
    }
  }

  lemma RevokedStays(a: Db, b: Db, n: NodeId)
    requires Evolves(a, b) && DeviceRevoked(a, n)
    ensures DeviceRevoked(b, n)
  {
  }

  lemma RefusedOnNode(a: Db, b: Db, tk: Ticket, states: set<Status>, n: NodeId)
    requires Evolves(a, b) && DeviceRevoked(a, n) && OnNode(b, tk.row.instance, n)
    ensures !MayCallAgent(a, tk, states)
  {
  }

  lemma RevokingRevokes(db: Db, n: NodeId)
    requires n in db.nodes && db.nodes[n].selfHosted && db.nodes[n].enabled
    ensures DeviceRevoked(RevokeNode(db, n), n)
  {
    hide Evolves, RevokedOn, RevokedAt;
  }

  /**
   After the revocation of a user's node no execution passes a check for an instance on it, in any
   run, even if an administrator switches the node on again: what may still be called was cleared before.
   */
  lemma RevokedNodeIsNotCalled(w: World, n: NodeId, steps: seq<Step>, e: Token)
    requires n in w.db.nodes && w.db.nodes[n].selfHosted && w.db.nodes[n].enabled
    requires CanCallAgent(Run(Apply(w, OfDesk(Revoke(n))), steps), e)
    requires var v := Run(Apply(w, OfDesk(Revoke(n))), steps); OnNode(v.db, v.execs[e].ticket.value.instance, n)
    ensures Ready(w, e)
  {
    hide Run, Evolves;
    RevokingRevokes(w.db, n);
    NothingNewIsCleared(Apply(w, OfDesk(Revoke(n))), steps, n, e);
  }

  /** The execution is cleared, with the same ticket and the same plan. */
  ghost predicate ReadyAs(w: World, e: Token, x: Exec) {
    Ready(w, e) && w.execs[e].ticket == x.ticket && w.execs[e].plan == x.plan && w.execs[e].seen == x.seen
  }

  /** The k-th step of the run is the passing check, and the execution has done and read nothing since. */
  ghost predicate FencedAt(g: World, steps: seq<Step>, e: Token, tk: Ticket, k: int) {
    0 <= k < |steps| && Passes(Run(g, steps[..k]), steps[k], e) && TicketOf(Run(g, steps[..k]).execs[e]) == tk
    && forall j :: k < j <= |steps| ==> ReadyAs(Run(g, steps[..j]), e, Run(g, steps[..k]).execs[e])
  }

  lemma {:induction false} LastCheck(g: World, steps: seq<Step>, e: Token) returns (k: int)
    requires g.execs == map[] && Ready(Run(g, steps), e)
    ensures FencedAt(g, steps, e, TicketOf(Run(g, steps).execs[e]), k)
    decreases |steps|
  {
    hide Apply, MayCallAgent;
    var n := |steps| - 1;
    var init, s := steps[..n], steps[n];
    assert steps == init + [s] && steps[..|steps|] == steps;
    RunAppend(g, init, [s]);
    var w := Run(g, init);
    assert Run(w, [s]) == Run(Apply(w, s), []);
    StepComesFrom(w, s);
    if Passes(w, s, e) {
      k := n;
    } else {
      k := LastCheck(g, init, e);
      assert steps[..k] == init[..k];
      forall j | k < j <= |steps| ensures ReadyAs(Run(g, steps[..j]), e, Run(g, steps[..k]).execs[e]) {
        if j <= n {
          assert steps[..j] == init[..j];
        } else {
          assert init[..n] == init;
        }
      }
    }
  }

  /**
   Whenever an execution may send a request, its last own step but lease renewals was a fence
   check that it passed with the very ticket it holds: at that moment the rows of its task, its
   instance and its node admitted it, and no other token of the instance was admitted.
   */
  lemma AgentCallsAreFenced(now: Instant, steps: seq<Step>, e: Token)
    requires CanCallAgent(Run(Genesis(now), steps), e)
    ensures var g := Genesis(now);
            var tk := TicketOf(Run(g, steps).execs[e]);
            exists k :: FencedAt(g, steps, e, tk, k)
                        && RowsAdmit(Run(g, steps[..k]).db, Run(g, steps[..k]).execs[e])
                        && forall other: Ticket, states: set<Status> ::
                             other.row.instance == tk.row.instance
                             && MayCallAgent(Run(g, steps[..k]).db, other, states) ==>
                               other.row.lease.value.token == tk.row.lease.value.token
  {
    hide Run, MayCallAgent;
    var g := Genesis(now);
    var k := LastCheck(g, steps, e);
    var tk := TicketOf(Run(g, steps).execs[e]);
    var expected := FenceStates(Run(g, steps[..k]).execs[e]);
    StatesSuit(Run(g, steps[..k]).execs[e]);
    QueryIsRows(Run(g, steps[..k]).db, Run(g, steps[..k]).execs[e]);
    forall other: Ticket, states: set<Status>
      | other.row.instance == tk.row.instance && MayCallAgent(Run(g, steps[..k]).db, other, states)
      ensures other.row.lease.Some? && tk.row.lease.Some? && other.row.lease.value.token == tk.row.lease.value.token
    {
      FenceIsExclusive(now, steps[..k], other, tk, states, expected);
      AdmittedHasLease(Run(g, steps[..k]).db, other, states);
      AdmittedHasLease(Run(g, steps[..k]).db, tk, expected);
    }
  }

  lemma AdmittedHasLease(db: Db, tk: Ticket, states: set<Status>)
    requires MayCallAgent(db, tk, states)
    ensures tk.row.lease.Some?
  {
  }
}
