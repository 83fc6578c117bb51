/**
 Destruction respects what superseded it: who writes destroyed and purged, what renewals and
 cancellations withdraw, and what a purge meets.
 */
module Supersession {
  import opened Wrappers
  import opened Billing
  import opened Refunds
  import opened Schema
  import opened Evolution
  import opened TaskQueue
  import opened Lifecycle
  import opened Commerce
  import opened PlanChange
  import opened World
  import opened History
  import opened Fencing
  import opened Footprints
  import opened Accounting
  import opened Finality
  import opened SagaRuns
  import opened Lifespan

  // ---------- who destroys ----------

  /** The step is the commit of a destroy execution that was built for the plan in force. */
  ghost predicate DestroysBy(w: World, s: Step, i: InstanceId)
    requires i in w.db.instances
  {
    s.OfExec? && s.x.CommitDestroy? && Has(w, s.x.exec)
    && var x := w.execs[s.x.exec];
       var tk := TicketOf(x);
       x.phase.Applied? && tk.row.instance == i && tk.row.action.Destroy? && x.plan.Some?
       && OwnsLease(w.db, tk) && HoldsLock(w.db, tk)
       && w.db.instances[i].status == DestroyScheduled && w.db.instances[i].destroyAt == x.plan
  }

  ghost predicate PurgesBy(w: World, s: Step, i: InstanceId)
    requires i in w.db.instances
  {
    s.OfExec? && s.x.CommitPurge? && Has(w, s.x.exec)
    && var x := w.execs[s.x.exec];
       var tk := TicketOf(x);
       x.phase.Applied? && tk.row.instance == i && tk.row.action.Purge? && OwnsLease(w.db, tk) && HoldsLock(w.db, tk)
       && PurgeDue(w.db, i)
  }

  /** No status becomes destroyed or purged. */
  ghost predicate NoneEnds(a: Db, b: Db) {
    forall i :: i in a.instances && i in b.instances && b.instances[i].status in {Destroyed, Purged} ==>
      b.instances[i].status == a.instances[i].status
  }

  lemma WriteEnds(db: Db, tk: Ticket, plan: Instant, i: InstanceId)
    requires i in db.instances
    ensures var v := WriteDestroyed(db, tk, plan);
            i in v.instances && (v.instances[i].status == Destroyed && db.instances[i].status != Destroyed <==>
                                 CanWriteDestroyed(db, tk, plan) && tk.row.instance == i)
            && (v.instances[i].status == Purged ==> db.instances[i].status == Purged)
    ensures var v := WritePurged(db, tk);
            i in v.instances && (v.instances[i].status == Purged && db.instances[i].status != Purged <==>
                                 CanWritePurged(db, tk) && tk.row.instance == i)
            && (v.instances[i].status == Destroyed ==> db.instances[i].status == Destroyed)
  {
    hide EvolvesQuietly, OwnsLease;
  }

  lemma ReportEndsNone(db: Db, i: InstanceId, a: Action, seen: Status)
    requires Reports(a)
    ensures NoneEnds(db, ReportRuntime(db, i, a, seen))
  {
    hide EvolvesQuietly, SameMoneyRows;
  }

  lemma ReportKnown(db: Db, j: InstanceId, a: Action, seen: Status, i: InstanceId)
    requires i in db.instances
    ensures i in ReportRuntime(db, j, a, seen).instances
  {
    hide EvolvesQuietly, SameMoneyRows;
  }

  lemma ExecEnds(w: World, s: ExecStep, i: InstanceId)
    requires i in w.db.instances
    ensures var v := ApplyExec(w, s).db;
            i in v.instances
            && (v.instances[i].status == Destroyed && w.db.instances[i].status != Destroyed <==>
                DestroysBy(w, OfExec(s), i))
            && (v.instances[i].status == Purged && w.db.instances[i].status != Purged <==> PurgesBy(w, OfExec(s), i))
  {
    hide EvolvesQuietly, MayCallAgent, PurgeDue, OwnsLease, HoldsLock, SameTickets, SameRenewals, ApplyReadPlan;
    hide CanCallAgent, WriteDestroyed, WritePurged, ReportRuntime, CanReport, MayReport;
    if s.CommitDestroy? || s.CommitPurge? {
      if Has(w, s.exec) {
        var x := w.execs[s.exec];
        WriteEnds(w.db, TicketOf(x), if x.plan.Some? then x.plan.value else 0, i);
      }
    } else if s.Report? {
      if Has(w, s.exec) && w.execs[s.exec].seen.Some? && Reports(w.execs[s.exec].ticket.value.action) {
        var x := w.execs[s.exec];
        ReportEndsNone(w.db, x.ticket.value.instance, x.ticket.value.action, x.seen.value);
        ReportKnown(w.db, x.ticket.value.instance, x.ticket.value.action, x.seen.value, i);
      }
    } else {
      ExecLife(w, s);
    }
  }

  lemma ShopEndsNone(w: World, s: ShopStep)
    ensures NoneEnds(w.db, ApplyShop(w, s).db)
  {
    hide EvolvesQuietly, RenewWithWallet, RefundOrder, CanRefund, BlocksRenewal;
    match s
    case Renew(r) =>
      if CanRenew(w.db, r) { RenewEffect(w.db, r); } else { RenewRefused(w.db, r); }
    case RefundStep(o, chain) => RefundRows(w.db, o, chain);
    case _ =>
  }

  lemma LifeEndsNone(w: World, s: LifeStep)
    ensures NoneEnds(w.db, ApplyLife(w, s).db)
  {
    hide EvolvesQuietly, MayCancelDestroy, DeferredDestroys;
  }

  lemma KeptEndsNone(a: Db, b: Db)
    requires LifeKept(a, b)
    ensures NoneEnds(a, b)
  {
  }

  /**
   In every step: `destroyed` is written exactly by the fenced commit of a destroy execution
   whose plan is the one in force, `purged` exactly by the fenced commit of a purge that is due.
   */
  lemma EndsAreFenced(w: World, s: Step, i: InstanceId)
    requires i in w.db.instances
    ensures var v := Apply(w, s).db;
            i in v.instances
            && (v.instances[i].status == Destroyed && w.db.instances[i].status != Destroyed <==> DestroysBy(w, s, i))
            && (v.instances[i].status == Purged && w.db.instances[i].status != Purged <==> PurgesBy(w, s, i))
  {
    hide NoneEnds, LifeKept, EvolvesQuietly, ApplyLease, ApplyDesk, ApplyExec, ApplySaga, ApplyRecon, ApplyShop;
    hide ApplyLife, OwnsLease, HoldsLock, PurgeDue;
    StaysKnown(w, s, i);
    match s {
      case OfLease(a) => LeaseLife(w, a); KeptEndsNone(w.db, Apply(w, s).db);
      case OfDesk(d) => DeskLife(w, d); KeptEndsNone(w.db, Apply(w, s).db);
      case OfExec(x) => ExecEnds(w, x, i);
      case OfSaga(g) => SagaLife(w, g); KeptEndsNone(w.db, Apply(w, s).db);
      case OfRecon(r) => ReconLife(w, r); KeptEndsNone(w.db, Apply(w, s).db);
      case OfShop(h) => ShopEndsNone(w, h);
      case OfLife(l) => LifeEndsNone(w, l);
    }
    if !s.OfExec? {
      NoneEndsAt(w.db, Apply(w, s).db, i);
    }
  }

  lemma NoneEndsAt(a: Db, b: Db, i: InstanceId)
    requires NoneEnds(a, b) && i in a.instances && i in b.instances
    ensures b.instances[i].status in {Destroyed, Purged} ==> b.instances[i].status == a.instances[i].status
  {
  }

  /** A destroy commits only the plan its idempotency key was built from. */
  lemma DestroyMatchesItsKey(w: World, s: Step, i: InstanceId)
    requires PlansOk(w) && i in w.db.instances && w.db.instances[i].status != Destroyed
    requires i in Apply(w, s).db.instances && Apply(w, s).db.instances[i].status == Destroyed
    ensures s.OfExec? && s.x.CommitDestroy? && Has(w, s.x.exec) && w.db.instances[i].destroyAt.Some?
            && w.execs[s.x.exec].ticket.value.key == DestroyKey(i, w.db.instances[i].destroyAt.value)
  {
    hide Apply;
    EndsAreFenced(w, s, i);
    assert PlanOk(w.db, w.execs[s.x.exec]);
  }

  /** A purge request leaves for the Agent only when the thirty days are over. */
  lemma PurgeCallIsLate(w: World, e: Token)
    requires PlansOk(w) && RetentionOk(w.db) && CanCallAgent(w, e) && w.execs[e].ticket.value.action.Purge?
    ensures var i := w.execs[e].ticket.value.instance;
            i in w.db.instances && w.db.instances[i].destroyedAt.Some?
            && w.db.instances[i].destroyedAt.value + 30 * 86_400 * 1_000_000_000 <= w.db.now
  {
    assert PlanOk(w.db, w.execs[e]);
  }

  // ---------- who plans ----------

  /** The step puts exactly this destruction time in force, and this is what it went by. */
  predicate PlansAt(w: World, s: Step, i: InstanceId, plan: Instant) {
    i in w.db.instances
    && match s
       case OfLife(Expire(r)) =>
         r in w.views && w.views[r].ExpiryView? && w.views[r].expiring == i && Serving(w.db.instances[i].status)
         && w.db.instances[i].expiresAt + 7 * 86_400 * 1_000_000_000 == plan
       case OfLife(Plan(j, seen)) =>
         j == i && CanPlanDestroy(w.db.instances[i], seen) && w.db.now + 7 * 86_400 * 1_000_000_000 == plan
       case OfShop(RefundStep(o, chain)) =>
         CanRefund(w.db, o, chain) && w.db.orders[o].instance == i && Serving(w.db.instances[i].status)
         && RefundCutoffAt(w.db.now) == plan
       case _ => false
  }

  predicate InForce(db: Db, i: InstanceId, plan: Instant) {
    i in db.instances && db.instances[i].destroyAt == Some(plan)
  }

  lemma KeptPlans(a: Db, b: Db, i: InstanceId, plan: Instant)
    requires LifeKept(a, b) && i in a.instances
    ensures InForce(a, i, plan) <==> InForce(b, i, plan)
  {
  }

  predicate SameDates(a: Db, b: Db, i: InstanceId) {
    i in a.instances && i in b.instances
    && b.instances[i].expiresAt == a.instances[i].expiresAt && b.instances[i].destroyAt == a.instances[i].destroyAt
    && b.instances[i].reason == a.instances[i].reason
  }

  lemma DestroyKeepsDates(db: Db, tk: Ticket, at: Instant, i: InstanceId)
    requires i in db.instances
    ensures SameDates(db, WriteDestroyed(db, tk, at), i)
  {
    hide EvolvesQuietly, SameMoneyRows, CanWriteDestroyed;
  }

  lemma PurgeKeepsDates(db: Db, tk: Ticket, i: InstanceId)
    requires i in db.instances
    ensures SameDates(db, WritePurged(db, tk), i)
  {
    hide EvolvesQuietly, SameMoneyRows, CanWritePurged;
  }

  lemma WritesKeepPlans(db: Db, tk: Ticket, at: Instant, i: InstanceId, plan: Instant)
    requires i in db.instances
    ensures InForce(db, i, plan) <==> InForce(WriteDestroyed(db, tk, at), i, plan)
    ensures InForce(db, i, plan) <==> InForce(WritePurged(db, tk), i, plan)
  {
    hide EvolvesQuietly, SameMoneyRows, WriteDestroyed, WritePurged;
    DestroyKeepsDates(db, tk, at, i);
    PurgeKeepsDates(db, tk, i);
  }

  lemma ReportKeepsPlans(db: Db, j: InstanceId, a: Action, seen: Status, i: InstanceId, plan: Instant)
    requires i in db.instances
    ensures InForce(db, i, plan) <==> InForce(ReportRuntime(db, j, a, seen), i, plan)
  {
    hide EvolvesQuietly, SameMoneyRows, MayReport;
  }

  lemma ExecKeepsPlans(w: World, s: ExecStep, i: InstanceId, plan: Instant)
    requires i in w.db.instances
    ensures InForce(w.db, i, plan) <==> InForce(ApplyExec(w, s).db, i, plan)
  {
    hide EvolvesQuietly, WriteDestroyed, WritePurged, CanWriteDestroyed, CanWritePurged, MayCallAgent, InForce;
    hide ReportRuntime, CanReport, MayReport, SameTickets, SameRenewals;
    if s.CommitDestroy? || s.CommitPurge? || s.Report? {
      if Has(w, s.exec) {
        var x := w.execs[s.exec];
        WritesKeepPlans(w.db, TicketOf(x), if x.plan.Some? then x.plan.value else 0, i, plan);
        if x.seen.Some? {
          ReportKeepsPlans(w.db, x.ticket.value.instance, x.ticket.value.action, x.seen.value, i, plan);
        }
      }
    } else {
      ExecLife(w, s);
    }
  }

  lemma ShopPlans(w: World, s: ShopStep, i: InstanceId, plan: Instant)
    requires i in w.db.instances && !InForce(w.db, i, plan)
    ensures InForce(ApplyShop(w, s).db, i, plan) <==> PlansAt(w, OfShop(s), i, plan)
  {
    hide EvolvesQuietly, RenewWithWallet, RefundOrder, CanRefund, BlocksRenewal, LockFree, RefundCutoffAt;
    match s
    case Renew(r) =>
      if CanRenew(w.db, r) { RenewEffect(w.db, r); } else { RenewRefused(w.db, r); }
    case RefundStep(o, chain) => RefundRows(w.db, o, chain); RefundKnown(w.db, o, chain);
    case _ =>
  }

  lemma RefundKnown(db: Db, o: OrderId, chain: seq<OrderId>)
    ensures CanRefund(db, o, chain) ==> o in db.orders
  {
  }

  lemma LifePlans(w: World, s: LifeStep, i: InstanceId, plan: Instant)
    requires i in w.db.instances && !InForce(w.db, i, plan)
    ensures InForce(ApplyLife(w, s).db, i, plan) <==> PlansAt(w, OfLife(s), i, plan)
  {
    hide EvolvesQuietly, SameMoneyRows, MayCancelDestroy, CommitCancel, FinalizeReconciled, InDoubt, ServiceEnded;
    hide RuntimeMove;
    hide PlanDestroy, ExpireInstance, WaiveRefund, ScheduleLifecycleTask, CanPlanDestroy, InForce, Serving;
    match s
    case Cancel(r) =>
      if r in w.views && w.views[r].CancelView? {
        CancelPlansNone(w.db, w.views[r].instance, w.views[r].runtime, i, plan);
      }
    case Reconcile(r) =>
      if r in w.views && w.views[r].OperationView? {
        MovesPlanNone(w.db, w.views[r].task, w.views[r].lifecycle, i, plan);
      }
    case Move(j, from, to, runtime) => MovePlansNone(w.db, j, from, to, runtime, i, plan);
    case Expire(r) =>
      if r in w.views && w.views[r].ExpiryView? {
        ExpiryPlans(w.db, w.views[r].expiring, w.views[r].status, i, plan);
      }
    case Plan(j, seen) => RequestPlans(w.db, j, seen, i, plan);
    case Waive(j) => WaivingPlansNone(w.db, j, i, plan);
    case Schedule(t, j, purge, at, runAfter) => SchedulingPlansNone(w.db, t, j, purge, at, runAfter, i, plan);
    case _ =>
  }

  lemma ExpiryPlans(db: Db, j: InstanceId, seen: Status, i: InstanceId, plan: Instant)
    requires i in db.instances && !InForce(db, i, plan)
    ensures InForce(ExpireInstance(db, j, seen), i, plan) <==>
            j == i && Serving(db.instances[i].status) && db.instances[i].expiresAt + GRACE == plan
  {
    hide EvolvesQuietly, SameMoneyRows, Serving;
  }

  lemma RequestPlans(db: Db, j: InstanceId, seen: Instance, i: InstanceId, plan: Instant)
    requires i in db.instances && !InForce(db, i, plan)
    ensures InForce(PlanDestroy(db, j, seen), i, plan) <==>
            j == i && CanPlanDestroy(db.instances[i], seen) && db.now + GRACE == plan
  {
    hide EvolvesQuietly, SameMoneyRows, CanPlanDestroy;
  }

  lemma WaivingPlansNone(db: Db, j: InstanceId, i: InstanceId, plan: Instant)
    requires i in db.instances && !InForce(db, i, plan)
    ensures !InForce(WaiveRefund(db, j), i, plan)
  {
    hide EvolvesQuietly, SameMoneyRows;
  }

  lemma SchedulingPlansNone(db: Db, t: TaskId, j: InstanceId, purge: bool, at: Instant, runAfter: Instant,
                            i: InstanceId, plan: Instant)
    requires i in db.instances && !InForce(db, i, plan)
    ensures !InForce(ScheduleLifecycleTask(db, t, j, purge, at, runAfter), i, plan)
  {
    hide EvolvesQuietly, SameMoneyRows;
  }

  lemma CancelPlansNone(db: Db, j: InstanceId, seen: Runtime, i: InstanceId, plan: Instant)
    requires i in db.instances && !InForce(db, i, plan)
    ensures !InForce(CommitCancel(db, j, seen), i, plan)
  {
    hide EvolvesQuietly, SameMoneyRows, DeferredDestroys;
  }

  lemma MovesPlanNone(db: Db, t: TaskId, lifecycle: Status, i: InstanceId, plan: Instant)
    requires i in db.instances && !InForce(db, i, plan)
    ensures !InForce(FinalizeReconciled(db, t, lifecycle), i, plan)
  {
    hide EvolvesQuietly, SameMoneyRows, CanTransition;
  }

  lemma MovePlansNone(db: Db, j: InstanceId, from: Status, to: Status, runtime: Runtime, i: InstanceId, plan: Instant)
    requires i in db.instances && !InForce(db, i, plan)
    ensures !InForce(RuntimeMove(db, j, from, to, runtime), i, plan)
  {
    hide EvolvesQuietly, SameMoneyRows, RoutedMove;
  }

  /** A destruction time comes into force in a step if and only if the step plans exactly it. */
  lemma PlanWriters(w: World, s: Step, i: InstanceId, plan: Instant)
    requires i in w.db.instances && !InForce(w.db, i, plan)
    ensures InForce(Apply(w, s).db, i, plan) <==> PlansAt(w, s, i, plan)
  {
    hide InForce, LifeKept, EvolvesQuietly, ApplyLease, ApplyDesk, ApplyExec, ApplySaga, ApplyRecon, ApplyShop;
    hide ApplyLife;
    hide CanRefund, CanPlanDestroy, RefundCutoffAt;
    match s
    case OfLease(a) => LeaseLife(w, a); KeptPlans(w.db, Apply(w, s).db, i, plan);
    case OfDesk(d) => DeskLife(w, d); KeptPlans(w.db, Apply(w, s).db, i, plan);
    case OfExec(x) => ExecKeepsPlans(w, x, i, plan);
    case OfSaga(g) => SagaLife(w, g); KeptPlans(w.db, Apply(w, s).db, i, plan);
    case OfRecon(r) => ReconLife(w, r); KeptPlans(w.db, Apply(w, s).db, i, plan);
    case OfShop(h) => ShopPlans(w, h, i, plan);
    case OfLife(l) => LifePlans(w, l, i, plan);
  }

  /** No step of the run plans exactly this time. */
  ghost predicate NeverPlanned(w: World, steps: seq<Step>, i: InstanceId, plan: Instant)
    decreases |steps|
  {
    steps == [] || (!PlansAt(w, steps[0], i, plan) && NeverPlanned(Apply(w, steps[0]), steps[1..], i, plan))
  }

  /**
   A plan that is not in force comes back only if a later step plans the very same instant:
   without one, no execution built for it, however old, commits.
   */
  lemma {:induction false} WithdrawnPlanStaysWithdrawn(w: World, steps: seq<Step>, tk: Ticket, plan: Instant)
    requires tk.row.instance in w.db.instances && !InForce(w.db, tk.row.instance, plan)
    requires NeverPlanned(w, steps, tk.row.instance, plan)
    ensures var v := Run(w, steps).db;
            !InForce(v, tk.row.instance, plan) && WriteDestroyed(v, tk, plan) == v
            && (tk.row.key == DestroyKey(tk.row.instance, plan) ==> PlanInForce(v, tk).None?)
    decreases |steps|
  {
    hide Apply, PlansAt, OwnsLease, HoldsLock, EvolvesQuietly;
    if steps != [] {
      PlanWriters(w, steps[0], tk.row.instance, plan);
      StaysKnown(w, steps[0], tk.row.instance);
      WithdrawnPlanStaysWithdrawn(Apply(w, steps[0]), steps[1..], tk, plan);
    }
  }

  // ---------- cancellations ----------

  /**
   A committed cancellation is never overwritten by the destroy it cancelled: the task is never
   claimed again, and no execution that claimed it, at any time, commits any plan.
   */
  lemma CancelSupersedesDestroy(w: World, r: int, t: TaskId, steps: seq<Step>, tk: Ticket, plan: Instant, token: Token)
    requires r in w.views && w.views[r].CancelView? && CanCommitCancel(w.db, w.views[r].instance)
    requires t in w.db.tasks && Deferred(w.db, t, w.views[r].instance) && tk.id == t
    ensures var v := Run(Apply(w, OfLife(Cancel(r))), steps).db;
            t in v.tasks && v.tasks[t].status == TaskCancelled && !CanClaim(v, t, token)
            && WriteDestroyed(v, tk, plan) == v
  {
    hide Run;
    CancelsTask(w, r, t);
    RunEvolves(Apply(w, OfLife(Cancel(r))), steps);
  }

  lemma CancelsTask(w: World, r: int, t: TaskId)
    requires r in w.views && w.views[r].CancelView? && CanCommitCancel(w.db, w.views[r].instance)
    requires t in w.db.tasks && Deferred(w.db, t, w.views[r].instance)
    ensures var v := Apply(w, OfLife(Cancel(r))).db;
            t in v.tasks && v.tasks[t].status == TaskCancelled
  {
    hide EvolvesQuietly, SameMoneyRows, DeferredDestroys;
  }

  /** Nor by any other destroy of the instance, unless a later step plans the very instant it was built for. */
  lemma CancelWithdrawsPlans(w: World, r: int, steps: seq<Step>, tk: Ticket, plan: Instant)
    requires r in w.views && w.views[r].CancelView? && CanCommitCancel(w.db, w.views[r].instance)
    requires tk.row.instance == w.views[r].instance
    requires NeverPlanned(Apply(w, OfLife(Cancel(r))), steps, tk.row.instance, plan)
    ensures var v := Run(Apply(w, OfLife(Cancel(r))), steps).db; WriteDestroyed(v, tk, plan) == v
  {
    hide Run, Apply, NeverPlanned, WriteDestroyed, CanCommitCancel;
    CancelClears(w, r);
    WithdrawnPlanStaysWithdrawn(Apply(w, OfLife(Cancel(r))), steps, tk, plan);
  }

  lemma CancelClears(w: World, r: int)
    requires r in w.views && w.views[r].CancelView? && CanCommitCancel(w.db, w.views[r].instance)
    ensures var v := Apply(w, OfLife(Cancel(r))).db;
            w.views[r].instance in v.instances && v.instances[w.views[r].instance].destroyAt == None
  {
    hide EvolvesQuietly, SameMoneyRows, DeferredDestroys;
  }

  // ---------- renewals ----------

  /** The row's dates are past a service that ended; only a refund's plan may share the time of the old one. */
  predicate Past(row: Instance, now: Instant, ended: Instant, due: bool) {
    && ended < now && ended < row.expiresAt
    && (row.destroyAt == Some(ended + GRACE) ==> row.reason == Some(Refund))
    && (due ==> ended + GRACE <= now && row.destroyAt != Some(ended + GRACE))
  }

  lemma ShopKeepsPast(w: World, s: ShopStep, i: InstanceId, ended: Instant, due: bool)
    requires i in w.db.instances && Past(w.db.instances[i], w.db.now, ended, due)
    ensures var v := ApplyShop(w, s).db; i in v.instances && Past(v.instances[i], w.db.now, ended, due)
  {
    hide EvolvesQuietly, RenewWithWallet, RefundOrder, CanRefund, BlocksRenewal, LockFree, RefundCutoffAt;
    CutoffIsTheFourthDay(w.db.now);
    match s
    case Renew(r) =>
      if CanRenew(w.db, r) { RenewEffect(w.db, r); } else { RenewRefused(w.db, r); }
    case RefundStep(o, chain) => RefundRows(w.db, o, chain); RefundKnown(w.db, o, chain);
    case _ =>
  }

  lemma LifeKeepsPast(w: World, s: LifeStep, i: InstanceId, ended: Instant, due: bool)
    requires i in w.db.instances && Past(w.db.instances[i], w.db.now, ended, due)
    ensures var v := ApplyLife(w, s).db; i in v.instances && Past(v.instances[i], w.db.now, ended, due)
  {
    hide EvolvesQuietly, MayCancelDestroy, DeferredDestroys, CanFinalize, InDoubt, ServiceEnded;
  }

  lemma WritesKeepPast(db: Db, tk: Ticket, plan: Instant, i: InstanceId, ended: Instant, due: bool)
    requires i in db.instances && Past(db.instances[i], db.now, ended, due)
    ensures var v := WriteDestroyed(db, tk, plan); i in v.instances && Past(v.instances[i], db.now, ended, due)
    ensures var v := WritePurged(db, tk); i in v.instances && Past(v.instances[i], db.now, ended, due)
  {
    hide EvolvesQuietly, SameMoneyRows, WriteDestroyed, WritePurged;
    DestroyKeepsDates(db, tk, plan, i);
    PurgeKeepsDates(db, tk, i);
  }

  lemma ReportKeepsPast(db: Db, j: InstanceId, a: Action, seen: Status, i: InstanceId, ended: Instant, due: bool)
    requires i in db.instances && Past(db.instances[i], db.now, ended, due)
    ensures var v := ReportRuntime(db, j, a, seen); i in v.instances && Past(v.instances[i], db.now, ended, due)
  {
    hide EvolvesQuietly, SameMoneyRows, MayReport;
  }

  lemma ExecKeepsPast(w: World, s: ExecStep, i: InstanceId, ended: Instant, due: bool)
    requires i in w.db.instances && Past(w.db.instances[i], w.db.now, ended, due)
    ensures var v := ApplyExec(w, s).db; i in v.instances && Past(v.instances[i], w.db.now, ended, due)
  {
    hide EvolvesQuietly, WriteDestroyed, WritePurged, CanWriteDestroyed, CanWritePurged, MayCallAgent, Past;
    hide ReportRuntime, CanReport, MayReport, SameTickets, SameRenewals;
    if s.CommitDestroy? || s.CommitPurge? || s.Report? {
      if Has(w, s.exec) {
        var x := w.execs[s.exec];
        WritesKeepPast(w.db, TicketOf(x), if x.plan.Some? then x.plan.value else 0, i, ended, due);
        if x.seen.Some? {
          ReportKeepsPast(w.db, x.ticket.value.instance, x.ticket.value.action, x.seen.value, i, ended, due);
        }
      }
    } else {
      ExecLife(w, s);
    }
  }

  lemma KeptPast(a: Db, b: Db, i: InstanceId, ended: Instant, due: bool)
    requires LifeKept(a, b) && i in a.instances && Past(a.instances[i], a.now, ended, due)
    ensures i in b.instances && Past(b.instances[i], a.now, ended, due)
  {
  }

  lemma StepKeepsPast(w: World, s: Step, i: InstanceId, ended: Instant, due: bool)
    requires i in w.db.instances && Past(w.db.instances[i], w.db.now, ended, due)
    ensures var v := Apply(w, s).db; i in v.instances && Past(v.instances[i], v.now, ended, due)
  {
    hide LifeKept, EvolvesQuietly, ApplyLease, ApplyDesk, ApplyExec, ApplySaga, ApplyRecon, ApplyShop, ApplyLife;
    ClockRuns(w, s);
    match s
    case OfLease(a) => LeaseLife(w, a); KeptPast(w.db, Apply(w, s).db, i, ended, due);
    case OfDesk(d) => DeskLife(w, d); KeptPast(w.db, Apply(w, s).db, i, ended, due);
    case OfExec(x) => ExecKeepsPast(w, x, i, ended, due);
    case OfSaga(g) => SagaLife(w, g); KeptPast(w.db, Apply(w, s).db, i, ended, due);
    case OfRecon(r) => ReconLife(w, r); KeptPast(w.db, Apply(w, s).db, i, ended, due);
    case OfShop(h) => ShopKeepsPast(w, h, i, ended, due);
    case OfLife(l) => LifeKeepsPast(w, l, i, ended, due);
  }

  lemma {:induction false} RunKeepsPast(w: World, steps: seq<Step>, i: InstanceId, ended: Instant, due: bool)
    requires i in w.db.instances && Past(w.db.instances[i], w.db.now, ended, due)
    ensures var v := Run(w, steps).db; i in v.instances && Past(v.instances[i], v.now, ended, due)
    decreases |steps|
  {
    hide Apply, Past;
    if steps != [] {
      StepKeepsPast(w, steps[0], i, ended, due);
      RunKeepsPast(Apply(w, steps[0]), steps[1..], i, ended, due);
    }
  }

  /**
   A committed renewal of an expired instance is never overwritten by a destroy of the plan it
   withdrew, in any run: not by a worker that claimed it earlier, however long it is delayed, nor
   by a new delivery of the task. For a plan that was not yet due there is one exception, a
   refund whose own plan falls on the very same instant.
   */
  lemma RenewalSupersedesDestroy(w: World, r: Renewal, steps: seq<Step>, tk: Ticket)
    requires CanRenew(w.db, r) && tk.row.instance == w.db.orders[r.source].instance
    requires var row := w.db.instances[tk.row.instance];
             ExpiredPlan(row) && ExpiredPlanOk(row) && tk.row.key == DestroyKey(tk.row.instance, row.destroyAt.value)
    ensures var plan := w.db.instances[tk.row.instance].destroyAt.value;
            var v := Run(Apply(w, OfShop(Renew(r))), steps).db;
            && (plan <= w.db.now ==> PlanInForce(v, tk).None? && WriteDestroyed(v, tk, plan) == v)
            && (w.db.instances[tk.row.instance].expiresAt < w.db.now && WriteDestroyed(v, tk, plan) != v ==>
                  v.instances[tk.row.instance].reason == Some(Refund))
            && (NeverPlanned(Apply(w, OfShop(Renew(r))), steps, tk.row.instance, plan) ==>
                WriteDestroyed(v, tk, plan) == v)
  {
    hide Run, NeverPlanned, RenewWithWallet, BlocksRenewal, LockFree, OwnsLease, HoldsLock, EvolvesQuietly;
    RenewEffect(w.db, r);
    RenewClock(w.db, r);
    var i := tk.row.instance;
    var row := w.db.instances[i];
    var plan := row.destroyAt.value;
    var renewed := Apply(w, OfShop(Renew(r)));
    if row.expiresAt < w.db.now {
      RunKeepsPast(renewed, steps, i, row.expiresAt, plan <= w.db.now);
    }
    if NeverPlanned(renewed, steps, i, plan) {
      WithdrawnPlanStaysWithdrawn(renewed, steps, tk, plan);
    }
  }

  lemma RenewClock(db: Db, r: Renewal)
    ensures RenewWithWallet(db, r).now == db.now
  {
    hide EvolvesQuietly, BlocksRenewal, LockFree;
  }

  // ---------- purges and live orders ----------

  /** No unexpired active order of the instance. */
  ghost predicate NoLiveOrder(db: Db, i: InstanceId) {
    forall o :: o in db.orders ==> !LiveOrder(db, o, i)
  }

  /** The order waits for its deployment, and would have service left. */
  predicate WaitingOrder(db: Db, o: OrderId, i: InstanceId)
    requires o in db.orders
  {
    db.orders[o].instance == i && db.orders[o].status == OrderDeploying && db.now < db.orders[o].end
  }

  /** No order of the instance waits; the eligibility read of a purge could ask this. */
  ghost predicate NoneWaiting(db: Db, i: InstanceId) {
    forall o :: o in db.orders ==> !WaitingOrder(db, o, i)
  }

  /** Active and deploying orders of the instance are old ones, with their old status and end. */
  ghost predicate NoNewActive(a: map<OrderId, Order>, b: map<OrderId, Order>, i: InstanceId) {
    a == b
    || forall o :: o in b && b[o].instance == i && b[o].status in {OrderActive, OrderDeploying} ==>
         o in a && a[o].instance == i && a[o].status == b[o].status && a[o].end == b[o].end
  }

  lemma {:induction false} ItemsActivateNone(s: Ledgered, change: Change, c: ChangeId, items: seq<QuoteItem>,
                                             ids: seq<OrderId>, i: InstanceId)
    requires |items| == |ids| && change.instance != i
    ensures var r := SettleItems(s, change, c, items, ids); r.Some? ==>
              NoNewActive(s.books.orders, r.value.books.orders, i)
  {
    if items != [] {
      ItemsActivateNone(s, change, c, items[..|items| - 1], ids[..|items| - 1], i);
    }
  }

  /** An instance that left service gets no replacement orders. */
  lemma SettlementActivatesNone(db: Db, tk: Ticket, ids: seq<OrderId>, i: InstanceId)
    requires TicketOk(db, tk.id, tk.row) && Linked(db) && i in db.instances && !Serving(db.instances[i].status)
    ensures var r := CompletePlanChange(db, tk, ids); r.Committed? ==> NoNewActive(db.orders, r.db.orders, i)
  {
    hide BooksOnly, SettleItems, SettlementOwned;
    if CompletePlanChange(db, tk, ids).Committed? {
      var c := tk.row.change.value;
      assert TaskLinked(db, tk.id);
      ItemsActivateNone(OpeningBooks(db, db.changes[c], c), db.changes[c], c, db.changes[c].items, ids, i);
    }
  }

  /** No execution of the instance stands between its status write and the activation of its orders. */
  ghost predicate NoneActivating(w: World, i: InstanceId) {
    forall e :: Has(w, e) && w.execs[e].phase.Transitioned? ==> w.execs[e].ticket.value.instance != i
  }

  /** The step is the activation of the instance's orders. */
  predicate Activates(w: World, s: SagaStep, i: InstanceId) {
    s.ActivateExec? && Has(w, s.exec) && w.execs[s.exec].phase.Transitioned?
    && w.execs[s.exec].ticket.value.instance == i
  }

  lemma SagaActivatesNone(w: World, s: SagaStep, i: InstanceId)
    requires FenceInv(w) && Linked(w.db) && i in w.db.instances && !Serving(w.db.instances[i].status)
             && !Activates(w, s, i)
    ensures NoNewActive(w.db.orders, ApplySaga(w, s).db.orders, i)
  {
    hide FenceInv, Linked, EvolvesQuietly, LifeKept, OpenChange, RequestCancel, CompletePlanChange;
    hide CompleteCompensation;
    hide FailChange, MarkBlocked, CanCompensate, ActivateOrders;
    match s
    case SettleExec(e, ids) =>
      if Has(w, e) {
        ExecTicketOk(w, e);
        SettlementActivatesNone(w.db, TicketOf(w.execs[e]), ids, i);
      }
    case ActivateExec(e) =>
      if Has(w, e) && w.execs[e].phase.Transitioned? {
        OtherActivated(w.db, w.execs[e].ticket.value.instance, i);
      }
    case _ =>
  }

  lemma OtherActivated(db: Db, j: InstanceId, i: InstanceId)
    requires j != i
    ensures NoNewActive(db.orders, ActivateOrders(db, j).orders, i)
  {
    hide BooksOnly;
  }

  lemma ReconActivatesNone(w: World, s: ReconStep, i: InstanceId)
    requires FenceInv(w) && Linked(w.db) && i in w.db.instances && !Serving(w.db.instances[i].status)
    ensures NoNewActive(w.db.orders, ApplyRecon(w, s).db.orders, i)
  {
    hide FenceInv, Linked, EvolvesQuietly, LifeKept, CompletePlanChange, FailChange, MarkBlocked, ResumeBlocked;
    hide RecordObservation, CloseReviewed, ReleaseInstanceLock;
    match s
    case SettleRecon(r, ids) =>
      if r in w.recons {
        ReconTicketOk(w, r);
        SettlementActivatesNone(w.db, Ticket(w.recons[r].task, w.recons[r].row), ids, i);
      }
    case _ =>
  }

  lemma {:induction false} LinesActivateNone(b: Books, user: UserId, segments: seq<Segment>, cutoff: Instant,
                                             i: InstanceId)
    requires forall k :: 0 <= k < |segments| ==> segments[k].id in b.orders
    ensures NoNewActive(b.orders, RefundLines(b, user, segments, cutoff).orders, i)
  {
    hide RefundAmountForSegment;
    if segments != [] {
      LinesActivateNone(b, user, segments[..|segments| - 1], cutoff, i);
    }
  }

  lemma RefundActivatesNone(db: Db, o: OrderId, chain: seq<OrderId>, i: InstanceId)
    ensures NoNewActive(db.orders, RefundOrder(db, o, chain).orders, i)
  {
    hide EvolvesQuietly, RefundLines, ValidChain, QuotedTotal, LinesTotal, Segments, RefundedInstance, NoNewActive;
    SameOrdersActivateNone(db.orders, i);
    if CanRefund(db, o, chain) {
      var user := db.orders[o].owner;
      ChainIds(db, chain, o);
      LinesActivateNone(Books(db.orders, db.ledger, db.wallets[user]), user, Segments(db, chain),
                        RefundCutoffAt(db.now), i);
    }
  }

  lemma SameOrdersActivateNone(a: map<OrderId, Order>, i: InstanceId)
    ensures NoNewActive(a, a, i)
  {
  }

  lemma ShopActivatesNone(w: World, s: ShopStep, i: InstanceId)
    requires i in w.db.instances && w.db.instances[i].status in {Destroyed, Purged}
    ensures NoNewActive(w.db.orders, ApplyShop(w, s).db.orders, i)
  {
    hide EvolvesQuietly, RenewWithWallet, BlocksRenewal, RefundOrder;
    match s
    case Renew(r) =>
      if CanRenew(w.db, r) { RenewEffect(w.db, r); } else { RenewRefused(w.db, r); }
    case RefundStep(o, chain) => RefundActivatesNone(w.db, o, chain, i);
    case _ =>
  }

  // ---------- nobody starts activating after the destruction ----------

  /** Executions between their two statements were there before, or report in this step. */
  ghost predicate StillActivating(w: World, s: Step, v: World) {
    forall e :: Has(v, e) && v.execs[e].phase.Transitioned? ==>
      Has(w, e) && v.execs[e].ticket == w.execs[e].ticket
      && (w.execs[e].phase.Transitioned?
          || (s == OfExec(Report(e)) && w.execs[e].seen.Some?
              && CanReport(w.db, w.execs[e].ticket.value.instance, w.execs[e].ticket.value.action,
                           w.execs[e].seen.value)))
  }

  lemma LeaseActivating(w: World, s: LeaseStep)
    ensures StillActivating(w, OfLease(s), ApplyLease(w, s))
  {
    hide QueueOnly, Evolves, LeaseExpired, OwnsLease, CanClaim, SameTickets, SameRenewals, FinishedStatus, CanReport;
    hide Advance, RegisterNode, ClaimTask, RenewTaskLease, RenewInstanceLock, RecoverExpiredLease, FinishTask;
    hide ReleaseInstanceLock;
  }

  lemma ExecActivating(w: World, s: ExecStep)
    ensures StillActivating(w, OfExec(s), ApplyExec(w, s))
  {
    hide EvolvesQuietly, WriteDestroyed, WritePurged, CanWriteDestroyed, CanWritePurged, MayCallAgent, PurgeDue;
    hide PlanInForce, SameTickets, SameRenewals, ReportRuntime, CanReport, MayReport, FenceStates;
  }

  lemma SettleActivating(w: World, e: Token, ids: seq<OrderId>)
    ensures StillActivating(w, OfSaga(SettleExec(e, ids)), ApplySettleExec(w, e, ids))
    ensures StillActivating(w, OfSaga(CompensateExec(e)), ApplyCompensateExec(w, e))
  {
    hide BooksOnly, CompletePlanChange, CompleteCompensation, CanCompensate, SameTickets, SameRenewals, CanReport;
  }

  lemma SagaActivating(w: World, s: SagaStep)
    ensures StillActivating(w, OfSaga(s), ApplySaga(w, s))
  {
    hide BooksOnly, OpenChange, RequestCancel, FailChange, Block, SameTickets, SameRenewals, FailsChange, MarksChange;
    hide ApplySettleExec, ApplyCompensateExec, ActivateOrders, CanReport;
    match s
    case SettleExec(e, ids) => SettleActivating(w, e, ids);
    case CompensateExec(e) => SettleActivating(w, e, []);
    case _ =>
  }

  lemma StepActivating(w: World, s: Step)
    ensures StillActivating(w, s, Apply(w, s))
  {
    hide ApplyLease, ApplyDesk, ApplyExec, ApplySaga, ApplyRecon, ApplyShop, ApplyLife, CanReport;
    match s
    case OfLease(a) => LeaseActivating(w, a);
    case OfExec(x) => ExecActivating(w, x);
    case OfSaga(g) => SagaActivating(w, g);
    case OfDesk(d) => DeskExecs(w, d);
    case OfRecon(r) => ReconExecs(w, r);
    case OfLife(l) => LifeExecs(w, l);
    case OfShop(h) => ShopExecs(w, h);
  }

  lemma StepKeepsNoneActivating(w: World, s: Step, i: InstanceId)
    requires i in w.db.instances && w.db.instances[i].status in {Destroyed, Purged} && NoneActivating(w, i)
    ensures NoneActivating(Apply(w, s), i)
  {
    hide Apply;
    StepActivating(w, s);
  }

  /** Nobody activates orders of the instance, or there is none to activate. */
  ghost predicate NoneToActivate(w: World, i: InstanceId) {
    NoneActivating(w, i) || NoneWaiting(w.db, i)
  }

  lemma OtherStepsActivateNone(w: World, s: Step, i: InstanceId)
    requires FenceInv(w) && Linked(w.db) && i in w.db.instances && w.db.instances[i].status in {Destroyed, Purged}
    requires !(s.OfSaga? && Activates(w, s.s, i))
    ensures NoNewActive(w.db.orders, Apply(w, s).db.orders, i)
  {
    hide FenceInv, Linked, LifeKept, NoNewActive, Evolves, Activates;
    hide ApplyLease, ApplyDesk, ApplyExec, ApplySaga, ApplyRecon, ApplyShop, ApplyLife;
    SameOrdersActivateNone(w.db.orders, i);
    match s {
      case OfLease(a) => LeaseLife(w, a);
      case OfDesk(d) => DeskLife(w, d);
      case OfExec(x) => ExecLife(w, x);
      case OfSaga(g) => SagaActivatesNone(w, g, i);
      case OfRecon(r) => ReconActivatesNone(w, r, i);
      case OfShop(h) => ShopActivatesNone(w, h, i);
      case OfLife(l) => LifeMoney(w, l);
    }
  }

  lemma ActiveOnly(a: Db, b: Db, i: InstanceId)
    requires NoLiveOrder(a, i) && NoNewActive(a.orders, b.orders, i) && a.now <= b.now
    ensures NoLiveOrder(b, i) && (NoneWaiting(a, i) ==> NoneWaiting(b, i))
  {
    forall o | o in b.orders ensures !LiveOrder(b, o, i) && (NoneWaiting(a, i) ==> !WaitingOrder(b, o, i)) {
      if o in a.orders {
        assert !LiveOrder(a, o, i) && (NoneWaiting(a, i) ==> !WaitingOrder(a, o, i));
      }
    }
  }

  /** An activation without a waiting order. */
  lemma ActivationOfNone(db: Db, i: InstanceId)
    requires NoLiveOrder(db, i) && NoneWaiting(db, i)
    ensures NoLiveOrder(ActivateOrders(db, i), i) && NoneWaiting(ActivateOrders(db, i), i)
  {
    hide BooksOnly;
    forall o | o in db.orders
      ensures !LiveOrder(ActivateOrders(db, i), o, i) && !WaitingOrder(ActivateOrders(db, i), o, i)
    {
      assert !LiveOrder(db, o, i) && !WaitingOrder(db, o, i);
    }
  }

  lemma ActivationApplied(w: World, e: Token)
    requires Has(w, e) && w.execs[e].phase.Transitioned?
    ensures Apply(w, OfSaga(ActivateExec(e))).db == ActivateOrders(w.db, w.execs[e].ticket.value.instance)
  {
    hide BooksOnly, SameTickets, SameRenewals, ActivateOrders;
  }

  /** After the destruction no order of the instance becomes live, and nobody can start to make it so. */
  lemma StepKeepsNoLiveOrder(w: World, s: Step, i: InstanceId)
    requires FenceInv(w) && Linked(w.db) && i in w.db.instances && w.db.instances[i].status in {Destroyed, Purged}
    requires NoneToActivate(w, i) && NoLiveOrder(w.db, i)
    ensures NoLiveOrder(Apply(w, s).db, i) && NoneToActivate(Apply(w, s), i)
  {
    hide FenceInv, Linked, Evolves, Apply, NoLiveOrder, NoneWaiting, NoNewActive;
    if NoneActivating(w, i) {
      StepKeepsNoneActivating(w, s, i);
    }
    if s.OfSaga? && Activates(w, s.s, i) {
      ActivationApplied(w, s.s.exec);
      ActivationOfNone(w.db, i);
    } else {
      OtherStepsActivateNone(w, s, i);
      ClockRuns(w, s);
      ActiveOnly(w.db, Apply(w, s).db, i);
    }
  }

  /** An execution that stands before the activation makes an order live exactly when one waits. */
  lemma LateActivation(w: World, e: Token)
    requires Has(w, e) && w.execs[e].phase.Transitioned? && NoLiveOrder(w.db, w.execs[e].ticket.value.instance)
    ensures var i := w.execs[e].ticket.value.instance;
            NoLiveOrder(Apply(w, OfSaga(ActivateExec(e))).db, i) <==> NoneWaiting(w.db, i)
  {
    hide BooksOnly, Apply;
    var i := w.execs[e].ticket.value.instance;
    ActivationApplied(w, e);
    var v := ActivateOrders(w.db, i);
    forall o | o in w.db.orders ensures LiveOrder(v, o, i) <==> WaitingOrder(w.db, o, i) {
      assert !LiveOrder(w.db, o, i);
    }
  }

  /**
   From the eligibility read of a purge to its request to the Agent, and to its commit, no
   unexpired active order appears, whatever happens, if and only if no execution of the instance
   stands between its status write and the activation of its orders when the purge looks, or no
   order of the instance then waits for its deployment with service left.
   */
  lemma PurgeMeetsNoLiveOrder(w: World, i: InstanceId)
    requires FenceInv(w) && Linked(w.db) && RetentionOk(w.db) && PurgeDue(w.db, i)
    ensures (forall steps :: NoLiveOrder(Run(w, steps).db, i)) <==> NoneActivating(w, i) || NoneWaiting(w.db, i)
  {
    assert NoLiveOrder(w.db, i);
    hide FenceInv, Linked, RetentionOk, Run, Apply, NoLiveOrder, NoneWaiting;
    if NoneToActivate(w, i) {
      forall steps ensures NoLiveOrder(Run(w, steps).db, i) {
        RunKeepsNoLiveOrder(w, steps, i);
      }
    } else {
      var e :| Has(w, e) && w.execs[e].phase.Transitioned? && w.execs[e].ticket.value.instance == i;
      LateActivation(w, e);
      OneStep(w, OfSaga(ActivateExec(e)));
      assert !NoLiveOrder(Run(w, [OfSaga(ActivateExec(e))]).db, i);
    }
  }

  lemma OneStep(w: World, s: Step)
    ensures Run(w, [s]) == Apply(w, s)
  {
    hide Apply;
    assert Run(w, [s]) == Run(Apply(w, s), []);
  }

  lemma {:induction false} RunKeepsNoLiveOrder(w: World, steps: seq<Step>, i: InstanceId)
    requires FenceInv(w) && Linked(w.db) && RetentionOk(w.db)
    requires i in w.db.instances && w.db.instances[i].status in {Destroyed, Purged}
    requires NoLiveOrder(w.db, i) && NoneToActivate(w, i)
    ensures NoLiveOrder(Run(w, steps).db, i)
    decreases |steps|
  {
    hide FenceInv, Linked, RetentionOk, NoLiveOrder, NoneToActivate, Apply;
    if steps != [] {
      var v := Apply(w, steps[0]);
      StepKeepsNoLiveOrder(w, steps[0], i);
      StepKeepsFence(w, steps[0]);
      StepKeepsLinks(w, steps[0]);
      StepKeepsRetention(w, steps[0]);
      RetentionOverRuns(w, [steps[0]], i);
      OneStep(w, steps[0]);
      RunKeepsNoLiveOrder(v, steps[1..], i);
    }
  }
}
