/**
 The saga's promises over whole runs.
 */
module SagaRuns {
  import opened Wrappers
  import opened Schema
  import opened Evolution
  import opened TaskQueue
  import opened Lifecycle
  import opened Commerce
  import opened PlanChange
  import opened World
  import opened History
  import opened Ledger
  import opened Accounting
  import opened Money
  import opened Saga

  /** A terminal change is never left, under any interleaving. */
  lemma {:induction false} TerminalForever(w: World, steps: seq<Step>, c: ChangeId)
    requires LedgerInv(w.db) && c in w.db.changes && !InFlight(w.db.changes[c])
    ensures var v := Run(w, steps).db;
            c in v.changes && v.changes[c].status == w.db.changes[c].status
            && v.changes[c].saga == w.db.changes[c].saga && v.changes[c].funds == w.db.changes[c].funds
    decreases |steps|
  {
    hide LedgerInv, Apply, ReleasesBy, SettlesBy;
    if steps != [] {
      StepKeepsLedger(w, steps[0]);
      StepMoves(w, steps[0], c);
      TerminalForever(Apply(w, steps[0]), steps[1..], c);
    }
  }

  /** A compensating change stays so, or has been failed and released; it never succeeds. */
  lemma {:induction false} CompensationIsAbsorbing(w: World, steps: seq<Step>, c: ChangeId)
    requires LedgerInv(w.db) && c in w.db.changes && w.db.changes[c].saga == Compensating
    ensures var v := Run(w, steps).db;
            c in v.changes
            && ((v.changes[c].saga == Compensating && v.changes[c].status == InReview
                 && v.changes[c].funds == FundsReserved)
                || (v.changes[c].saga == SagaCancelled && v.changes[c].status == ChangeFailed
                    && v.changes[c].funds == FundsReleased))
    decreases |steps|
  {
    hide LedgerInv, Apply, ReleasesBy, SettlesBy;
    SagaOf(w.db, c);
    if steps != [] {
      var v := Apply(w, steps[0]);
      StepKeepsLedger(w, steps[0]);
      StepMoves(w, steps[0], c);
      SagaOf(v.db, c);
      if v.db.changes[c].saga == Compensating {
        CompensationIsAbsorbing(v, steps[1..], c);
      } else {
        TerminalForever(v, steps[1..], c);
      }
    }
  }

  /** Only the commit of an applied compensating resize ends a compensation. */
  lemma CompensationEndsByReapplying(w: World, s: Step, c: ChangeId)
    requires LedgerInv(w.db) && c in w.db.changes && w.db.changes[c].saga == Compensating
    ensures var v := Apply(w, s).db;
            c in v.changes && (v.changes[c].saga != Compensating ==>
                                 s.OfSaga? && s.s.CompensateExec? && Has(w, s.s.exec)
                                 && w.execs[s.s.exec].phase.Applied?
                                 && w.execs[s.s.exec].ticket.value.change == Some(c)
                                 && w.execs[s.s.exec].ticket.value.action.CompensateResize?)
  {
    hide LedgerInv, Apply, FailsChange, CanCompensate, ObservedAtSource;
    SagaOf(w.db, c);
    StepMoves(w, s, c);
    SagaOf(w.db, c);
  }

  // ---------- evidence ----------

  /** A reconcile that resumed a change saw the target or the source. */
  ghost predicate ReconsSaw(w: World) {
    forall r :: r in w.recons && w.recons[r].phase.Resumed? ==>
      w.recons[r].change in w.db.changes
      && (w.recons[r].phase.seen == w.db.changes[w.recons[r].change].target
          || w.recons[r].phase.seen == w.db.changes[w.recons[r].change].source)
  }

  /** An accepted finish moved the row where the outcome says. */
  ghost predicate FinishesOk(w: World) {
    forall e :: e in w.execs && (w.execs[e].phase.Accepted? || w.execs[e].phase.Unlocked?) ==>
      w.execs[e].ticket.Some?
      && w.execs[e].phase.next == FinishedStatus(w.execs[e].ticket.value, w.execs[e].phase.outcome)
  }

  ghost predicate SameRecons(a: map<int, Recon>, b: map<int, Recon>) {
    forall r :: r in b ==> (r in a && b[r].change == a[r].change && b[r].phase == a[r].phase) || !b[r].phase.Resumed?
  }

  lemma LeaseRecons(w: World, s: LeaseStep)
    ensures SameRecons(w.recons, ApplyLease(w, s).recons)
  {
    hide EvolvesQuietly, Evolves, LeaseExpired, OwnsLease, CanClaim, SameTickets;
  }

  /** Executions between an accepted finish and its bookkeeping are as they were. */
  ghost predicate SameFinishes(a: map<Token, Exec>, b: map<Token, Exec>) {
    a == b
    || forall e :: e in b && (b[e].phase.Accepted? || b[e].phase.Unlocked?) ==>
         e in a && a[e].phase == b[e].phase && a[e].ticket == b[e].ticket
  }

  lemma DeskExecs(w: World, s: DeskStep)
    ensures ApplyDesk(w, s).recons == w.recons && ApplyDesk(w, s).execs == w.execs
  {
    hide QueueOnly, Evolves, QuarantineFailed, RetryFailed, CancelQueued, CloseReconciled, DiscardForGood;
    hide DiscardReview, ResumeReview, ClearLocksOf, RevokeNode, SwitchNode, QueueAction;
  }

  lemma ReportRecons(w: World, e: Token)
    ensures ApplyReadInstance(w, e).recons == w.recons && SameFinishes(w.execs, ApplyReadInstance(w, e).execs)
    ensures ApplyReport(w, e).recons == w.recons && SameFinishes(w.execs, ApplyReport(w, e).execs)
  {
    hide EvolvesQuietly, SameTickets, SameRenewals, ReportRuntime, CanReport, MayReport;
  }

  lemma CommitRecons(w: World, e: Token, db: Db, committed: bool)
    requires e in w.execs && !w.execs[e].phase.Claimed?
    ensures CommitWith(w, e, db, committed).recons == w.recons
    ensures SameFinishes(w.execs, CommitWith(w, e, db, committed).execs)
  {
    hide SameTickets, SameRenewals;
  }

  lemma ReadPlanRecons(w: World, e: Token)
    ensures ApplyReadPlan(w, e).recons == w.recons && SameFinishes(w.execs, ApplyReadPlan(w, e).execs)
  {
    hide PurgeDue, PlanInForce, SameTickets, SameRenewals;
  }

  lemma ExecRecons(w: World, s: ExecStep)
    ensures ApplyExec(w, s).recons == w.recons && SameFinishes(w.execs, ApplyExec(w, s).execs)
  {
    hide EvolvesQuietly, WriteDestroyed, WritePurged, CanWriteDestroyed, CanWritePurged, MayCallAgent, CommitWith;
    hide SameTickets, SameRenewals, FenceStates, ApplyReadInstance, ApplyReport, ApplyReadPlan;
    match s
    case CommitDestroy(e) =>
      if Has(w, e) && w.execs[e].phase.Applied? && w.execs[e].plan.Some? {
        var tk, plan := TicketOf(w.execs[e]), w.execs[e].plan.value;
        CommitRecons(w, e, WriteDestroyed(w.db, tk, plan), CanWriteDestroyed(w.db, tk, plan));
      }
    case CommitPurge(e) =>
      if Has(w, e) && w.execs[e].phase.Applied? {
        var tk := TicketOf(w.execs[e]);
        CommitRecons(w, e, WritePurged(w.db, tk), CanWritePurged(w.db, tk));
      }
    case ReadPlan(e) => ReadPlanRecons(w, e);
    case _ => ReportRecons(w, s.exec);
  }

  lemma SettleRecons(w: World, e: Token, ids: seq<OrderId>)
    ensures ApplySettleExec(w, e, ids).recons == w.recons && SameFinishes(w.execs, ApplySettleExec(w, e, ids).execs)
    ensures ApplyCompensateExec(w, e).recons == w.recons && SameFinishes(w.execs, ApplyCompensateExec(w, e).execs)
  {
    hide BooksOnly, CompletePlanChange, CompleteCompensation, CanCompensate, SameTickets, SameRenewals;
  }

  lemma SagaRecons(w: World, s: SagaStep)
    ensures ApplySaga(w, s).recons == w.recons && SameFinishes(w.execs, ApplySaga(w, s).execs)
  {
    hide BooksOnly, OpenChange, RequestCancel, FailChange, Block, SameTickets, SameRenewals, FailsChange, MarksChange;
    hide ApplySettleExec, ApplyCompensateExec;
    match s
    case SettleExec(e, ids) => SettleRecons(w, e, ids);
    case CompensateExec(e) => SettleRecons(w, e, []);
    case _ =>
  }

  lemma OtherRecons(w: World, s: Step)
    requires !s.OfLease? && !s.OfRecon?
    ensures Apply(w, s).recons == w.recons && SameFinishes(w.execs, Apply(w, s).execs)
  {
    hide ApplyDesk, ApplyExec, ApplySaga;
    match s
    case OfDesk(d) => DeskExecs(w, d);
    case OfExec(x) => ExecRecons(w, x);
    case OfSaga(g) => SagaRecons(w, g);
    case OfLife(l) => LifeExecs(w, l);
    case OfShop(h) =>
  }

  lemma LifeExecs(w: World, s: LifeStep)
    ensures ApplyLife(w, s).recons == w.recons && ApplyLife(w, s).execs == w.execs
  {
    hide EvolvesQuietly, RuntimeMove, FinalizeReconciled, ExpireInstance, PlanDestroy, CommitCancel, WaiveRefund;
    hide ScheduleLifecycleTask, MayCancelDestroy;
  }

  lemma ShopExecs(w: World, s: ShopStep)
    ensures ApplyShop(w, s).execs == w.execs
  {
    hide EvolvesQuietly, OpenWallet, AdjustWallet, PurchaseWithWallet, RenewWithWallet, RefundOrder, DeployOwn;
    hide ExpireOrders, FailOrders;
  }

  lemma ReconExecs(w: World, s: ReconStep)
    ensures ApplyRecon(w, s).execs == w.execs
  {
    hide BooksOnly, QueueOnly, CompletePlanChange, FailChange, MarkBlocked, ResumeBlocked, RecordObservation;
    hide CloseReviewed, ReleaseInstanceLock, Resumable, CanStartRecon, SameRows;
  }

  lemma FactsStay(a: Db, b: Db, c: ChangeId)
    requires Evolves(a, b) && c in a.changes
    ensures c in b.changes && SameChangeFacts(a.changes[c], b.changes[c])
  {
  }

  lemma ReconSees(w: World, s: ReconStep)
    ensures forall r :: r in ApplyRecon(w, s).recons && ApplyRecon(w, s).recons[r].phase.Resumed? ==>
              var x := ApplyRecon(w, s).recons[r];
              (r in w.recons && x == w.recons[r])
              || (x.change in w.db.changes
                  && (x.phase.seen == w.db.changes[x.change].target || x.phase.seen == w.db.changes[x.change].source))
  {
    hide BooksOnly, QueueOnly, CompletePlanChange, FailChange, MarkBlocked, ResumeBlocked, RecordObservation;
    hide CloseReviewed, ReleaseInstanceLock, Resumable, CanStartRecon, SameRows;
  }

  lemma StepKeepsRecons(w: World, s: Step)
    requires ReconsSaw(w)
    ensures ReconsSaw(Apply(w, s))
  {
    hide Evolves, ApplyLease, ApplyDesk, ApplyExec, ApplySaga, ApplyRecon, ApplyShop, ApplyLife;
    var v := Apply(w, s);
    StepEvolves(w, s);
    match s {
      case OfLease(a) => LeaseRecons(w, a);
      case OfRecon(r) => ReconSees(w, r);
      case _ => OtherRecons(w, s);
    }
    forall r | r in v.recons && v.recons[r].phase.Resumed?
      ensures v.recons[r].change in v.db.changes
              && (v.recons[r].phase.seen == v.db.changes[v.recons[r].change].target
                  || v.recons[r].phase.seen == v.db.changes[v.recons[r].change].source)
    {
      assert v.recons[r].change in w.db.changes;
      FactsStay(w.db, v.db, v.recons[r].change);
    }
  }

  lemma LeaseFinishes(w: World, s: LeaseStep)
    requires FinishesOk(w)
    ensures FinishesOk(ApplyLease(w, s))
  {
    hide QueueOnly, Evolves, LeaseExpired, OwnsLease, CanClaim, SameTickets, SameRenewals, FinishedStatus;
    hide Advance, RegisterNode, ClaimTask, RenewTaskLease, RenewInstanceLock, RecoverExpiredLease, FinishTask;
    hide ReleaseInstanceLock;
  }

  lemma StepKeepsFinishes(w: World, s: Step)
    requires FinishesOk(w)
    ensures FinishesOk(Apply(w, s))
  {
    hide ApplyLease, ApplyDesk, ApplyExec, ApplySaga, ApplyRecon, ApplyShop, ApplyLife, FinishedStatus;
    match s
    case OfLease(a) => LeaseFinishes(w, a);
    case OfRecon(r) => ReconExecs(w, r);
    case _ => OtherRecons(w, s);
  }

  /** What a step that gives a reservation back can go by. */
  ghost predicate Backed(w: World, s: Step, c: ChangeId)
    requires c in w.db.changes
  {
    match s
    case OfSaga(RequestCompensation(d, _)) => d == c && ObservedAtSource(w.db, c)
    case OfSaga(CompensateExec(e)) =>
      Has(w, e) && w.execs[e].phase.Applied? && w.execs[e].ticket.value.action.CompensateResize?
      && w.execs[e].ticket.value.change == Some(c) && CanCompensate(w.db, TicketOf(w.execs[e]), c)
    case OfSaga(SettleDiscarded(t)) => t in w.discarded && t in w.db.tasks && w.db.tasks[t].change == Some(c)
    case OfSaga(FailDeployment(_)) => w.db.changes[c].observed == Some(w.db.changes[c].source)
    case OfRecon(SettleRecon(r, _)) =>
      r in w.recons && w.recons[r].change == c && w.recons[r].phase == Resumed(w.db.changes[c].source)
    case _ => false
  }

  /** A resize of the change whose third attempt, or a later one, failed, and whose worker has blocked the change. */
  ghost predicate Exhausted(w: World, e: Token, c: ChangeId) {
    Has(w, e) && w.execs[e].phase.Marked? && w.execs[e].phase.outcome in {Fails, CommandCancelled}
    && w.execs[e].ticket.value.action == Action.Resize && w.execs[e].ticket.value.attempts >= 3
    && w.execs[e].ticket.value.change == Some(c)
  }

  lemma ExhaustedFails(w: World, e: Token, c: ChangeId)
    ensures Exhausted(w, e, c) <==>
            Has(w, e) && FailsChange(w.execs[e]) && w.execs[e].ticket.value.change == Some(c)
  {
  }

  /** The exhausted-retry path finds the change processing and something else than the source observed, or nothing. */
  ghost predicate FailsUnbacked(w: World, s: Step, c: ChangeId)
    requires c in w.db.changes
  {
    s.OfSaga? && s.s.FailDeployment? && Exhausted(w, s.s.exec, c)
    && w.db.changes[c].status == Processing && w.db.changes[c].observed != Some(w.db.changes[c].source)
  }

  /**
   Evidence before release. A step gives a reservation back only if the source resources were
   observed and no resize can change them, the Agent re-applied them, a reconcile or the failing
   path itself went by an observed source, or an administrator discarded the task. The one
   exception, exactly: the exhausted-retry path on a processing change of which something else than
   the source was last observed. A settlement has an applied resize or an inspection behind it.
   */
  lemma EvidenceBeforeRelease(w: World, s: Step, c: ChangeId)
    requires LedgerInv(w.db) && ReconsSaw(w) && c in w.db.changes && w.db.changes[c].status != ChangeFailed
    ensures var v := Apply(w, s).db;
            c in v.changes
            && (v.changes[c].status == ChangeFailed && !Backed(w, s, c) <==> FailsUnbacked(w, s, c))
            && (v.changes[c].status == ChangeSucceeded && w.db.changes[c].status != ChangeSucceeded ==>
                  || (s.OfSaga? && s.s.SettleExec? && Has(w, s.s.exec) && w.execs[s.s.exec].phase.Applied?
                      && w.execs[s.s.exec].ticket.value.action.Resize?)
                  || (s.OfRecon? && s.r.SettleRecon? && s.r.recon in w.recons && w.recons[s.r.recon].phase.Resumed?))
  {
    hide LedgerInv, Apply, FailsChange, CanCompensate, ObservedAtSource, CanRequestCancel, Exhausted;
    StepMoves(w, s, c);
    if s.OfSaga? && s.s.FailDeployment? {
      ExhaustedFails(w, s.s.exec, c);
    }
  }

  // ---------- what an administrator gives up ----------

  lemma OthersDiscardNothing(w: World, s: Step)
    requires !s.OfDesk?
    ensures Apply(w, s).discarded == w.discarded && (!s.OfLife? ==> Apply(w, s).views == w.views)
  {
    match s
    case OfLease(a) => LeaseDiscardsNothing(w, a);
    case OfExec(x) => ExecDiscardsNothing(w, x);
    case OfSaga(g) => SagaDiscardsNothing(w, g);
    case OfRecon(r) => ReconDiscardsNothing(w, r);
    case _ =>
      hide EvolvesQuietly, ApplyLease, ApplyExec, ApplySaga, ApplyRecon, ApplyDesk;
  }

  lemma LeaseDiscardsNothing(w: World, s: LeaseStep)
    ensures ApplyLease(w, s).discarded == w.discarded && ApplyLease(w, s).views == w.views
  {
    hide QueueOnly, Evolves, LeaseExpired, OwnsLease, CanClaim, SameTickets, SameRenewals, FinishedStatus;
    hide Advance, RegisterNode, ClaimTask, RenewTaskLease, RenewInstanceLock, RecoverExpiredLease, FinishTask;
    hide ReleaseInstanceLock;
  }

  lemma ExecDiscardsNothing(w: World, s: ExecStep)
    ensures ApplyExec(w, s).discarded == w.discarded && ApplyExec(w, s).views == w.views
  {
    hide EvolvesQuietly, WriteDestroyed, WritePurged, CanWriteDestroyed, CanWritePurged, MayCallAgent, PurgeDue;
    hide PlanInForce, SameTickets, SameRenewals, ReportRuntime, CanReport, MayReport, FenceStates;
  }

  lemma SagaDiscardsNothing(w: World, s: SagaStep)
    ensures ApplySaga(w, s).discarded == w.discarded && ApplySaga(w, s).views == w.views
  {
    hide BooksOnly, OpenChange, RequestCancel, FailChange, MarkBlocked, SameTickets, SameRenewals, FailsChange;
    hide MarksChange, ActivateOrders, CompletePlanChange, CompleteCompensation, CanCompensate;
  }

  lemma ReconDiscardsNothing(w: World, s: ReconStep)
    ensures ApplyRecon(w, s).discarded == w.discarded && ApplyRecon(w, s).views == w.views
  {
    hide BooksOnly, QueueOnly, CompletePlanChange, FailChange, MarkBlocked, ResumeBlocked, RecordObservation;
    hide CloseReviewed, ReleaseInstanceLock, Resumable, CanStartRecon, SameRows;
  }

  /**
   A task counts as given up in a step if and only if an administrator discards it in review, or,
   for good, also when it had failed; then it is failed, or discarded for good.
   */
  lemma DiscardsAreDecisions(w: World, s: Step, t: TaskId)
    requires t !in w.discarded
    ensures var v := Apply(w, s);
            && (t in v.discarded <==>
                  s.OfDesk? && s.d.Discard? && s.d.task == t && t in w.db.tasks
                  && (w.db.tasks[t].status == TaskReview || (s.d.forGood && w.db.tasks[t].status == TaskFailed)))
            && (t in v.discarded ==>
                  t in v.db.tasks && v.db.tasks[t].status == if s.d.forGood then TaskDiscarded else TaskFailed)
  {
    if s.OfDesk? {
      hide QueueOnly, Evolves, QuarantineFailed, RetryFailed, CancelQueued, CloseReconciled, ResumeReview;
      hide ClearLocksOf, RevokeNode, SwitchNode, QueueAction;
    } else {
      OthersDiscardNothing(w, s);
    }
  }

  /** A discarded resize fails its change, a discarded compensation blocks it, and nothing else is settled so. */
  lemma DiscardedSettles(w: World, t: TaskId)
    ensures var v := Apply(w, OfSaga(SettleDiscarded(t))).db;
            v == if t in w.discarded && t in w.db.tasks && w.db.tasks[t].change.Some?
                 then (match w.db.tasks[t].action
                       case Resize => FailChange(w.db, w.db.tasks[t].change.value)
                       case CompensateResize => MarkBlocked(w.db, w.db.tasks[t].change.value)
                       case _ => w.db)
                 else w.db
  {
    hide BooksOnly, FailChange, MarkBlocked;
  }

  /** What a reconcile blocks a processing change for: it saw nothing, or something strange, or could not settle. */
  ghost predicate BlocksFor(w: World, s: ReconStep, c: ChangeId)
    requires c in w.db.changes
  {
    s.recon in w.recons && w.recons[s.recon].change == c
    && var phase := w.recons[s.recon].phase;
       match s
       case Inspect(_, seen) => phase == Inspecting && seen == None
       case Decide(_) => phase.Saw? && phase.seen != w.db.changes[c].target && phase.seen != w.db.changes[c].source
       case BlockRecon(_) => phase == SettleFailed
       case _ => false
  }

  lemma InspectBlocks(w: World, r: int, seen: Option<Resources>, c: ChangeId)
    requires c in w.db.changes && w.db.changes[c].status == Processing
    ensures var v := ApplyInspect(w, r, seen).db;
            c in v.changes && (v.changes[c].status == InReview <==> BlocksFor(w, Inspect(r, seen), c))
  {
    hide BooksOnly, Block, RecordObservation, SameRows;
    if r in w.recons {
      BlockRows(w, Some(w.recons[r].change));
      if seen.Some? {
        RowsInspect(w.db, w.recons[r].change, seen.value, c);
      }
    }
  }

  lemma DecisionBlocks(w: World, r: int, c: ChangeId)
    requires c in w.db.changes && w.db.changes[c].status == Processing
    ensures var v := ApplyDecide(w, r).db;
            c in v.changes && (v.changes[c].status == InReview <==> BlocksFor(w, Decide(r), c))
  {
    hide BooksOnly, Block, ResumeBlocked, Resumable, SameRows, Inspected;
    if r in w.recons {
      BlockRows(w, Some(w.recons[r].change));
      RowsInspect(w.db, w.recons[r].change, w.db.changes[c].source, c);
      ResumedIsProcessing(w.db, w.recons[r].change, c);
    }
  }

  lemma ResumedIsProcessing(db: Db, d: ChangeId, c: ChangeId)
    requires c in db.changes && db.changes[c].status == Processing
    ensures c in ResumeBlocked(db, d).changes && ResumeBlocked(db, d).changes[c].status == Processing
  {
    hide BooksOnly;
  }

  lemma SettlingBlocksNone(w: World, r: int, ids: seq<OrderId>, c: ChangeId)
    requires LedgerInv(w.db) && c in w.db.changes && w.db.changes[c].status == Processing
    ensures var v := ApplySettleRecon(w, r, ids).db; c in v.changes && v.changes[c].status != InReview
  {
    hide LedgerInv, BooksOnly, CompletePlanChange, FailChange, SameRows;
    if r in w.recons {
      FailRows(w.db, w.recons[r].change);
      SettlementRows(w.db, Ticket(w.recons[r].task, w.recons[r].row), ids);
    }
  }

  lemma ClosingBlocksNone(w: World, s: ReconStep, c: ChangeId)
    requires s.StartRecon? || s.CloseRecon? || s.UnlockRecon?
    ensures ApplyRecon(w, s).db.changes == w.db.changes
  {
    hide SameRows, CanStartRecon;
  }

  /** A reconcile blocks a processing change exactly for one of these. */
  lemma ReconBlocks(w: World, s: ReconStep, c: ChangeId)
    requires LedgerInv(w.db) && c in w.db.changes && w.db.changes[c].status == Processing
    ensures var v := ApplyRecon(w, s).db;
            c in v.changes && (v.changes[c].status == InReview <==> BlocksFor(w, s, c))
  {
    hide LedgerInv, Block, ApplyInspect, ApplyDecide, ApplySettleRecon, SameRows, CanStartRecon, CloseReviewed;
    hide ReleaseInstanceLock;
    match s
    case Inspect(r, seen) => InspectBlocks(w, r, seen, c);
    case Decide(r) => DecisionBlocks(w, r, c);
    case SettleRecon(r, ids) => SettlingBlocksNone(w, r, ids, c);
    case BlockRecon(r) => if r in w.recons { BlockRows(w, Some(w.recons[r].change)); }
    case _ => ClosingBlocksNone(w, s, c);
  }

  /** It resumes a change in review exactly after an inspection that saw the source or the target. */
  lemma DecisionResumes(w: World, r: int, c: ChangeId)
    requires c in w.db.changes && w.db.changes[c].status == InReview
    ensures var v := ApplyDecide(w, r).db;
            c in v.changes
            && (v.changes[c].status == Processing <==>
                  r in w.recons && w.recons[r].change == c && w.recons[r].phase.Saw?
                  && w.recons[r].phase.seen in {w.db.changes[c].source, w.db.changes[c].target}
                  && w.db.changes[c].funds == FundsBlocked)
  {
    hide BooksOnly, Block, SameRows, ResumeBlocked, Resumable;
    if r in w.recons {
      BlockRows(w, Some(w.recons[r].change));
      ResumedRow(w.db, w.recons[r].change, c);
    }
  }

  lemma ResumedRow(db: Db, d: ChangeId, c: ChangeId)
    requires c in db.changes && db.changes[c].status == InReview
    ensures c in ResumeBlocked(db, d).changes
    ensures ResumeBlocked(db, d).changes[c].status == Processing <==> c == d && Resumable(db, d)
    ensures Resumable(db, c) <==> db.changes[c].funds == FundsBlocked
  {
    hide BooksOnly;
  }

  /** It closes its task only with a change that is no longer processing; a refused settlement changes nothing. */
  lemma SettlingCloses(w: World, r: int, ids: seq<OrderId>)
    requires LedgerInv(w.db) && r in w.recons && w.recons[r].phase.Resumed? && w.recons[r].change in w.db.changes
    requires w.recons[r].row.change == Some(w.recons[r].change)
    ensures var v := ApplySettleRecon(w, r, ids);
            var c := w.recons[r].change;
            var onTarget := w.recons[r].phase.seen == w.db.changes[c].target;
            && r in v.recons && c in v.db.changes
            && (v.recons[r].phase == Closing(onTarget) || v.recons[r].phase == SettleFailed)
            && (v.recons[r].phase == SettleFailed <==>
                  onTarget && CompletePlanChange(w.db, Ticket(w.recons[r].task, w.recons[r].row), ids).Rejected?)
            && (v.recons[r].phase.Closing? ==> v.db.changes[c].status != Processing)
            && (v.recons[r].phase == SettleFailed ==> v.db == w.db)
  {
    hide LedgerInv, BooksOnly, CompletePlanChange, FailChange, SameRows;
    FailRows(w.db, w.recons[r].change);
    SettlementRows(w.db, Ticket(w.recons[r].task, w.recons[r].row), ids);
    NothingLeft(w.db, Ticket(w.recons[r].task, w.recons[r].row), ids);
  }

  lemma NothingLeft(db: Db, tk: Ticket, ids: seq<OrderId>)
    ensures CompletePlanChange(db, tk, ids).NothingToSettle? ==>
              tk.row.change.Some? && tk.row.change.value in db.changes
              && db.changes[tk.row.change.value].status != Processing
  {
    hide BooksOnly, SettleItems, CanSettle, OpeningBooks;
  }

  // ---------- the exhausted-retry path ----------

  /** A reconcile that saw the source makes the change processable again. */
  ghost predicate ResumesOnSource(w: World, s: Step, c: ChangeId) {
    c in w.db.changes && ResumesBy(w, s, c) && w.recons[s.r.recon].phase.seen == w.db.changes[c].source
  }

  /** No step of the run resumes the change after an inspection that saw something else. */
  ghost predicate NeverResumedElsewhere(w: World, steps: seq<Step>, c: ChangeId)
    decreases |steps|
  {
    steps == [] || ((c in w.db.changes && ResumesBy(w, steps[0], c) ==> ResumesOnSource(w, steps[0], c))
                    && NeverResumedElsewhere(Apply(w, steps[0]), steps[1..], c))
  }

  ghost predicate ResumedOnSource(w: World, steps: seq<Step>, c: ChangeId)
    decreases |steps|
  {
    steps != [] && (ResumesOnSource(w, steps[0], c) || ResumedOnSource(Apply(w, steps[0]), steps[1..], c))
  }

  lemma {:induction false} BlockedUntilResumed(w: World, steps: seq<Step>, c: ChangeId)
    requires LedgerInv(w.db) && c in w.db.changes && w.db.changes[c].status != Processing
    requires NeverResumedElsewhere(w, steps, c)
    ensures var v := Run(w, steps);
            LedgerInv(v.db) && c in v.db.changes
            && (v.db.changes[c].status == Processing ==> ResumedOnSource(w, steps, c))
    decreases |steps|
  {
    hide LedgerInv, Apply, ResumesBy, ReleasesBy, SettlesBy, ResumesOnSource;
    if steps != [] {
      StepKeepsLedger(w, steps[0]);
      StepMoves(w, steps[0], c);
      if ResumesOnSource(w, steps[0], c) {
        RunKeepsLedger(Apply(w, steps[0]), steps[1..]);
        ChangeStays(Apply(w, steps[0]), steps[1..], c);
      } else {
        BlockedUntilResumed(Apply(w, steps[0]), steps[1..], c);
      }
    }
  }

  lemma ChangeStays(w: World, steps: seq<Step>, c: ChangeId)
    requires c in w.db.changes
    ensures c in Run(w, steps).db.changes
  {
    hide Run;
    RunEvolves(w, steps);
  }

  /**
   Before the statement that fails a deployment, a finished resize blocks its processing change if
   and only if it goes to review: its command was cancelled, or its third attempt failed.
   */
  lemma MarkingBlocks(w: World, e: Token, c: ChangeId)
    requires FinishesOk(w) && Has(w, e) && w.execs[e].phase.Unlocked? && c in w.db.changes
    ensures var row, outcome := w.execs[e].ticket.value, w.execs[e].phase.outcome;
            var v := Apply(w, OfSaga(MarkObserving(e))).db;
            c in v.changes
            && v.changes[c] ==
                 if w.db.changes[c].status == Processing && row.action == Action.Resize && row.change == Some(c)
                    && (outcome == CommandCancelled || (outcome == Fails && row.attempts >= 3))
                 then w.db.changes[c].(status := InReview, saga := Observing, funds := FundsBlocked)
                 else w.db.changes[c]
  {
    hide MarkBlocked, MarksChange;
    MarkingStep(w, e);
    MarkedWhenReviewed(w, e);
    if w.execs[e].ticket.value.change.Some? {
      BlockedRow(w.db, w.execs[e].ticket.value.change.value, c);
    }
    hide Apply;
  }

  lemma MarkingStep(w: World, e: Token)
    requires Has(w, e) && w.execs[e].phase.Unlocked?
    ensures var change := w.execs[e].ticket.value.change;
            Apply(w, OfSaga(MarkObserving(e))).db ==
              if MarksChange(w.execs[e]) && change.Some? then MarkBlocked(w.db, change.value) else w.db
  {
    hide MarksChange, MarkBlocked, SameTickets, SameRenewals, BooksOnly;
  }

  lemma MarkedWhenReviewed(w: World, e: Token)
    requires FinishesOk(w) && Has(w, e) && w.execs[e].phase.Unlocked?
    ensures var row, outcome := w.execs[e].ticket.value, w.execs[e].phase.outcome;
            MarksChange(w.execs[e]) <==>
              row.action == Action.Resize && (outcome == CommandCancelled || (outcome == Fails && row.attempts >= 3))
  {
  }

  lemma BlockedRow(db: Db, d: ChangeId, c: ChangeId)
    requires c in db.changes
    ensures var after := MarkBlocked(db, d);
            c in after.changes
            && after.changes[c] ==
                 if d == c && db.changes[c].status == Processing
                 then db.changes[c].(status := InReview, saga := Observing, funds := FundsBlocked) else db.changes[c]
  {
    hide BooksOnly;
  }

  /**
   The exhausted-retry path is harmless unless a reconcile that saw something else than the source
   resumes the change between the worker's two statements, whatever else happens there: whatever
   it releases was resumed because the source was seen.
   */
  lemma ExhaustedRetryIsHarmless(w: World, e: Token, c: ChangeId, between: seq<Step>)
    requires LedgerInv(w.db) && FinishesOk(w) && Has(w, e) && w.execs[e].phase.Unlocked?
             && !w.execs[e].phase.outcome.Succeeds?
    requires var row := w.execs[e].ticket.value;
             row.action.Resize? && row.attempts >= 3 && row.change == Some(c)
    requires c in w.db.changes && NeverResumedElsewhere(Apply(w, OfSaga(MarkObserving(e))), between, c)
    ensures var marked := Apply(w, OfSaga(MarkObserving(e)));
            var v := Run(marked, between);
            var x := Apply(v, OfSaga(FailDeployment(e)));
            c in v.db.changes && c in x.db.changes
            && (x.db.changes[c].status == ChangeFailed && v.db.changes[c].status != ChangeFailed ==>
                  ResumedOnSource(marked, between, c))
  {
    hide LedgerInv, FinishesOk, Apply, FailsChange, CanCompensate, ObservedAtSource, CanRequestCancel;
    var marked := Apply(w, OfSaga(MarkObserving(e)));
    MarkingBlocks(w, e, c);
    StepKeepsLedger(w, OfSaga(MarkObserving(e)));
    BlockedUntilResumed(marked, between, c);
    StepMoves(Run(marked, between), OfSaga(FailDeployment(e)), c);
  }

  /** The end of an execution fails a change if and only if it is that path and the change is processing again. */
  lemma ExhaustedRetryReleases(w: World, e: Token, c: ChangeId)
    requires LedgerInv(w.db) && c in w.db.changes && w.db.changes[c].status != ChangeFailed
    ensures var v := Apply(w, OfSaga(FailDeployment(e))).db;
            c in v.changes
            && (v.changes[c].status == ChangeFailed <==> Exhausted(w, e, c) && w.db.changes[c].status == Processing)
  {
    hide LedgerInv, Apply, FailsChange, Exhausted;
    StepMoves(w, OfSaga(FailDeployment(e)), c);
    ExhaustedFails(w, e, c);
  }

  // ---------- generations ----------

  /** A request to cancel moves the generation on exactly when the instance serves, or when it settles at once. */
  lemma CancelBumps(db: Db, c: ChangeId, t: TaskId)
    requires LedgerInv(db) && CanRequestCancel(db, c) && CanInsertTask(db, t, CompensateKey(c))
    ensures var after := RequestCancel(db, c, t);
            var i := db.changes[c].instance;
            i in after.instances
            && (after.instances[i].generation == db.instances[i].generation + 1 <==>
                Serving(db.instances[i].status) || ObservedAtSource(db, c))
            && (after.instances[i].generation != db.instances[i].generation + 1 ==>
                after.instances[i].generation == db.instances[i].generation)
  {
    hide LedgerInv, EvolvesQuietly, LifeKept, ObservedAtSource, CancelPendingResizes;
    OpenChangeFacts(db, c);
    CancelPendingKeepsBooks(BumpIfServing(db, db.changes[c].instance), db.changes[c].instance);
  }

  /**
   A cancel that queues the way back takes every queued resize of the instance out of the queue and
   leaves every other row alone; the way back aims at the source resources under the generation the
   instance now has.
   */
  lemma CancelClearsTheQueue(db: Db, c: ChangeId, t: TaskId)
    requires t !in db.tasks && t in RequestCancel(db, c, t).tasks
    ensures var after := RequestCancel(db, c, t);
            c in db.changes && c in after.changes
            && var i := db.changes[c].instance;
               i in after.instances && after.tasks.Keys == db.tasks.Keys + {t}
               && (forall u :: u in db.tasks ==>
                     if db.tasks[u].instance == i && db.tasks[u].action == Resize && db.tasks[u].status == TaskPending
                     then after.tasks[u].status == TaskCancelled else after.tasks[u] == db.tasks[u])
               && after.tasks[t].instance == i && after.tasks[t].action == CompensateResize
               && after.tasks[t].status == TaskPending && after.tasks[t].change == Some(c)
               && after.tasks[t].resources == db.changes[c].source
               && after.tasks[t].generation == after.instances[i].generation
               && after.changes[c].saga == Compensating && after.changes[c].compensation == Some(t)
  {
    hide BooksOnly, QueueOnly, ObservedAtSource, Release;
    if ObservedAtSource(db, c) {
      SettlingQueuesNothing(db, c, t);
    }
  }

  lemma SettlingQueuesNothing(db: Db, c: ChangeId, t: TaskId)
    requires CanRequestCancel(db, c) && ObservedAtSource(db, c)
    ensures RequestCancel(db, c, t).tasks == db.tasks
  {
    hide BooksOnly, QueueOnly, ObservedAtSource;
  }

  /** No run brings such a resize back: nobody ever claims it. */
  lemma CancelledResizeIsNeverClaimed(w: World, c: ChangeId, t: TaskId, u: TaskId, steps: seq<Step>, token: Token)
    requires t !in w.db.tasks && t in Apply(w, OfSaga(RequestCompensation(c, t))).db.tasks
    requires c in w.db.changes && u in w.db.tasks && w.db.tasks[u].instance == w.db.changes[c].instance
    requires w.db.tasks[u].action == Resize && w.db.tasks[u].status == TaskPending
    ensures var v := Run(Apply(w, OfSaga(RequestCompensation(c, t))), steps);
            u in v.db.tasks && v.db.tasks[u].status == TaskCancelled
            && !CanClaim(v.db, u, token) && Apply(v, OfLease(Claim(u, token))) == v
  {
    hide RequestCancel, Evolves;
    var v := Apply(w, OfSaga(RequestCompensation(c, t)));
    CancelClearsTheQueue(w.db, c, t);
    RunEvolves(v, steps);
    EndedStays(v.db, Run(v, steps).db, u);
  }

  lemma EndedStays(a: Db, b: Db, u: TaskId)
    requires Evolves(a, b) && u in a.tasks && Evolution.Ended(a.tasks[u].status)
    ensures u in b.tasks && b.tasks[u].status == a.tasks[u].status
  {
  }

  /**
   Once a cancel moved the generation on, the original resize never passes the fence again: it
   carries an older, non-zero generation, and generations only grow.
   */
  lemma OriginalResizeIsFenced(w: World, c: ChangeId, t: TaskId, steps: seq<Step>, tk: Ticket, expected: set<Status>)
    requires LedgerInv(w.db) && Linked(w.db) && GenerationsOk(w.db)
    requires CanRequestCancel(w.db, c) && CanInsertTask(w.db, t, CompensateKey(c))
    requires Serving(w.db.instances[w.db.changes[c].instance].status) || ObservedAtSource(w.db, c)
    requires tk.id in w.db.tasks && w.db.tasks[tk.id].action.Resize? && w.db.tasks[tk.id].change == Some(c)
    requires tk.row.instance == w.db.tasks[tk.id].instance
    ensures !MayCallAgent(Run(Apply(w, OfSaga(RequestCompensation(c, t))), steps).db, tk, expected)
  {
    hide LedgerInv, ObservedAtSource, RequestCancel, CanRequestCancel, CanInsertTask;
    var v := Apply(w, OfSaga(RequestCompensation(c, t)));
    assert TaskLinked(w.db, tk.id);
    CancelBumps(w.db, c, t);
    StepEvolves(w, OfSaga(RequestCompensation(c, t)));
    RunEvolves(v, steps);
    OlderGenerationStays(w.db, v.db, Run(v, steps).db, tk);
  }

  lemma OlderGenerationStays(a: Db, b: Db, c: Db, tk: Ticket)
    requires Evolves(a, b) && Evolves(b, c) && tk.id in a.tasks && tk.row.instance in b.instances
    requires 0 < a.tasks[tk.id].generation < b.instances[tk.row.instance].generation
    ensures tk.id in c.tasks && tk.row.instance in c.instances
            && 0 < c.tasks[tk.id].generation < c.instances[tk.row.instance].generation
  {
    assert SameTaskFacts(a.tasks[tk.id], b.tasks[tk.id]) && SameTaskFacts(b.tasks[tk.id], c.tasks[tk.id]);
  }
}
