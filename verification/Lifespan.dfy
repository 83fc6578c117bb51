/**
 The life of an instance over runs: its status machine, its retention, its destruction plans.
 */
module Lifespan {
  import opened Wrappers
  import opened Billing
  import opened Refunds
  import opened Schema
  import opened Evolution
  import opened TaskQueue
  import opened Lifecycle
  import opened Commerce
  import opened PlanChange
  import opened World
  import opened History
  import opened Footprints
  import opened Accounting
  import opened Finality
  import opened SagaRuns

  // ---------- one step of one row ----------

  /** An expired plan is due seven days after the end of the service it belongs to. */
  predicate ExpiredPlanOk(row: Instance) {
    ExpiredPlan(row) ==> row.destroyAt == Some(row.expiresAt + 7 * 86_400 * 1_000_000_000)
  }

  /** The status follows the table; destruction starts the retention; a purge ends it, not before it is over. */
  predicate LifeStep(x: Instance, y: Instance, now: Instant) {
    && CanTransition(x.status, y.status)
    && (y.status == Destroyed && x.status != Destroyed ==>
          y.destroyedAt == Some(now) && y.purgeAt == Some(now + 30 * 86_400 * 1_000_000_000))
    && (x.status == Destroyed || x.status == Purged ==> y.destroyedAt == x.destroyedAt && y.purgeAt == x.purgeAt)
    && (y.status == Purged && x.status != Purged ==> x.status == Destroyed && x.purgeAt.Some? && x.purgeAt.value <= now)
    && (ExpiredPlanOk(x) ==> ExpiredPlanOk(y))
  }

  ghost predicate LivesOn(a: Db, b: Db) {
    a.instances == b.instances
    || forall i :: i in b.instances ==>
         if i in a.instances then LifeStep(a.instances[i], b.instances[i], a.now)
           else b.instances[i].status == Deploying
  }

  lemma KeptLivesOn(a: Db, b: Db)
    requires LifeKept(a, b)
    ensures LivesOn(a, b)
  {
  }

  lemma WritesLiveOn(db: Db, tk: Ticket, plan: Instant)
    ensures LivesOn(db, WriteDestroyed(db, tk, plan)) && LivesOn(db, WritePurged(db, tk))
  {
    hide Evolves, OwnsLease;
  }

  lemma ReportLivesOn(db: Db, i: InstanceId, a: Action, seen: Status)
    ensures LivesOn(db, ReportRuntime(db, i, a, seen))
  {
    hide EvolvesQuietly, SameMoneyRows;
  }

  lemma ExecLivesOn(w: World, s: ExecStep)
    ensures LivesOn(w.db, ApplyExec(w, s).db)
  {
    hide EvolvesQuietly, WriteDestroyed, WritePurged, CanWriteDestroyed, CanWritePurged, MayCallAgent;
    hide SameTickets, SameRenewals, ReportRuntime, CanReport, MayReport, FenceStates, PurgeDue, PlanInForce;
    if s.CommitDestroy? || s.CommitPurge? {
      if Has(w, s.exec) {
        var x := w.execs[s.exec];
        WritesLiveOn(w.db, TicketOf(x), if x.plan.Some? then x.plan.value else 0);
      }
    } else if s.Report? {
      if Has(w, s.exec) && w.execs[s.exec].seen.Some? {
        var x := w.execs[s.exec];
        ReportLivesOn(w.db, x.ticket.value.instance, x.ticket.value.action, x.seen.value);
      }
    } else {
      ExecLife(w, s);
    }
  }

  /** New instances start deploying. */
  lemma PurchaseLivesOn(db: Db, p: Purchase)
    ensures LivesOn(db, PurchaseWithWallet(db, p))
  {
    hide EvolvesQuietly;
  }

  lemma DeployLivesOn(db: Db, d: OwnDeployment)
    ensures LivesOn(db, DeployOwn(db, d))
  {
    hide EvolvesQuietly;
  }

  lemma ShopLivesOn(w: World, s: ShopStep)
    ensures LivesOn(w.db, ApplyShop(w, s).db)
  {
    hide EvolvesQuietly, RenewWithWallet, RefundOrder, CanRefund, BlocksRenewal, LockFree, BooksOnly, RefundCutoffAt;
    hide PurchaseWithWallet, DeployOwn;
    match s
    case Buy(p) => PurchaseLivesOn(w.db, p);
    case Deploy(d) => DeployLivesOn(w.db, d);
    case Renew(r) =>
      if CanRenew(w.db, r) { RenewEffect(w.db, r); } else { RenewRefused(w.db, r); }
    case RefundStep(o, chain) => RefundRows(w.db, o, chain);
    case _ =>
  }

  lemma ReconcileLivesOn(db: Db, t: TaskId, lifecycle: Status)
    ensures LivesOn(db, FinalizeReconciled(db, t, lifecycle))
  {
    hide EvolvesQuietly, SameMoneyRows;
  }

  lemma LifeLivesOn(w: World, s: LifeStep)
    ensures LivesOn(w.db, ApplyLife(w, s).db)
  {
    hide EvolvesQuietly, MayCancelDestroy, DeferredDestroys, FinalizeReconciled;
    if s.Reconcile? && s.request in w.views && w.views[s.request].OperationView? {
      ReconcileLivesOn(w.db, w.views[s.request].task, w.views[s.request].lifecycle);
    }
  }

  /** Every step of the system moves every instance along the transition table. */
  lemma StepLivesOn(w: World, s: Step)
    ensures LivesOn(w.db, Apply(w, s).db)
  {
    hide LivesOn, LifeKept, EvolvesQuietly, ApplyLease, ApplyDesk, ApplyExec, ApplySaga, ApplyRecon, ApplyShop;
    hide ApplyLife;
    match s
    case OfLease(a) => LeaseLife(w, a); KeptLivesOn(w.db, Apply(w, s).db);
    case OfDesk(d) => DeskLife(w, d); KeptLivesOn(w.db, Apply(w, s).db);
    case OfExec(x) => ExecLivesOn(w, x);
    case OfSaga(g) => SagaLife(w, g); KeptLivesOn(w.db, Apply(w, s).db);
    case OfRecon(r) => ReconLife(w, r); KeptLivesOn(w.db, Apply(w, s).db);
    case OfShop(h) => ShopLivesOn(w, h);
    case OfLife(l) => LifeLivesOn(w, l);
  }

  // ---------- retention ----------

  /** Whatever is destroyed is kept for thirty days from its destruction. */
  ghost predicate RetentionOk(db: Db) {
    forall i :: i in db.instances && db.instances[i].status in {Destroyed, Purged} ==>
      var row := db.instances[i];
      row.destroyedAt.Some? && row.purgeAt == Some(row.destroyedAt.value + 30 * 86_400 * 1_000_000_000)
      && row.destroyedAt.value <= db.now
      && (row.status == Purged ==> row.purgeAt.value <= db.now)
  }

  ghost predicate ExpiredPlansOk(db: Db) {
    forall i :: i in db.instances ==> ExpiredPlanOk(db.instances[i])
  }

  lemma StepKeepsExpiredPlans(w: World, s: Step)
    requires ExpiredPlansOk(w.db)
    ensures ExpiredPlansOk(Apply(w, s).db)
  {
    hide Apply;
    StepLivesOn(w, s);
  }

  lemma StepKeepsRetention(w: World, s: Step)
    requires RetentionOk(w.db)
    ensures RetentionOk(Apply(w, s).db)
  {
    hide Apply, Evolves;
    StepLivesOn(w, s);
    ClockRuns(w, s);
  }

  lemma ClockRuns(w: World, s: Step)
    ensures w.db.now <= Apply(w, s).db.now
  {
    hide Apply;
    StepEvolves(w, s);
  }

  /**
   A destroyed instance stays destroyed, keeps its dates, and is purged at least thirty days after
   the destroy commit.
   */
  lemma {:induction false} RetentionOverRuns(w: World, steps: seq<Step>, i: InstanceId)
    requires RetentionOk(w.db) && i in w.db.instances && w.db.instances[i].status in {Destroyed, Purged}
    ensures var v := Run(w, steps).db;
            i in v.instances && v.instances[i].status in {Destroyed, Purged}
            && v.instances[i].destroyedAt == w.db.instances[i].destroyedAt
            && (v.instances[i].status == Purged ==>
                  w.db.instances[i].destroyedAt.value + 30 * 86_400 * 1_000_000_000 <= v.now)
    decreases |steps|
  {
    hide Apply;
    if steps != [] {
      StepKeepsRetention(w, steps[0]);
      StepLivesOn(w, steps[0]);
      StaysKnown(w, steps[0], i);
      RetentionOverRuns(Apply(w, steps[0]), steps[1..], i);
    }
  }

  lemma StaysKnown(w: World, s: Step, i: InstanceId)
    requires i in w.db.instances
    ensures i in Apply(w, s).db.instances
  {
    hide Apply;
    StepEvolves(w, s);
  }

  /** All moves there are: deploy or fail to, run and stop, plan or withdraw destruction, destroy, purge. */
  ghost predicate MovesOn(x: Status, y: Status) {
    x == y || (x, y) in {
      (Deploying, Running), (Deploying, DeploymentFailed), (DeploymentFailed, Deploying),
      (DeploymentFailed, DestroyScheduled), (Running, Stopped), (Stopped, Running), (Running, DestroyScheduled),
      (Stopped, DestroyScheduled), (DestroyScheduled, Running), (DestroyScheduled, Stopped),
      (DestroyScheduled, Destroyed), (Destroyed, Purged)}
  }

  /** The table allows exactly these. */
  lemma TableIsComplete(x: Status, y: Status)
    ensures CanTransition(x, y) <==> MovesOn(x, y)
  {
  }

  /** The commit of a destroy execution is dated, and a purge is reached from nowhere else. */
  lemma PurgeFollowsDestroy(w: World, s: Step, i: InstanceId)
    requires i in w.db.instances
    ensures var v := Apply(w, s).db;
            i in v.instances && MovesOn(w.db.instances[i].status, v.instances[i].status)
            && (v.instances[i].status == Purged ==> w.db.instances[i].status in {Destroyed, Purged})
            && (v.instances[i].status == Destroyed && w.db.instances[i].status != Destroyed ==>
                  v.instances[i].destroyedAt == Some(w.db.now)
                  && v.instances[i].purgeAt == Some(w.db.now + 30 * 86_400 * 1_000_000_000))
  {
    hide Apply;
    StepLivesOn(w, s);
    StaysKnown(w, s, i);
  }

  // ---------- what is read before it is acted on ----------

  /** The rows a request or a loop finds when it decides to act; it acts later, on what it found. */
  ghost predicate ReadBy(w: World, s: Step, r: int, view: View) {
    s.OfLife?
    && match view
       case CancelView(i, runtime) =>
         s.l == LoadCancel(r, i) && i in w.db.instances
         && var row := w.db.instances[i];
            row.status == DestroyScheduled && row.reason in {Some(Manual), Some(FailedDeployment)}
            && runtime == row.runtime
            && forall t :: t in w.db.tasks && w.db.tasks[t].instance == i ==> w.db.tasks[t].status != TaskRunning
       case OperationView(t, lifecycle) =>
         s.l == LoadOperation(r, t) && t in w.db.tasks && w.db.tasks[t].instance in w.db.instances
         && w.db.tasks[t].status == TaskReview && w.db.tasks[t].action in {Create, RetryDeploy, Start, Stop, Restart}
         && var row := w.db.instances[w.db.tasks[t].instance];
            row.node in w.db.nodes && w.db.nodes[row.node].selfHosted && lifecycle == row.status
       case ExpiryView(i, status) =>
         s.l == LoadExpiry(r, i) && i in w.db.instances
         && var row := w.db.instances[i];
            row.node in w.db.nodes && !w.db.nodes[row.node].selfHosted && row.status in {Running, Stopped}
            && row.expiresAt < w.db.now && status == row.status
  }

  lemma DeskReadsNothing(w: World, s: DeskStep)
    ensures ApplyDesk(w, s).views == w.views
  {
    hide QueueOnly, Evolves, QuarantineFailed, RetryFailed, CancelQueued, CloseReconciled, DiscardForGood;
    hide DiscardReview, ResumeReview, ClearLocksOf, RevokeNode, SwitchNode, QueueAction;
  }

  lemma LoadsRead(w: World, s: LifeStep, r: int)
    ensures r in ApplyLife(w, s).views && (r !in w.views || ApplyLife(w, s).views[r] != w.views[r]) ==>
              ReadBy(w, OfLife(s), r, ApplyLife(w, s).views[r])
  {
    hide EvolvesQuietly, RuntimeMove, FinalizeReconciled, ExpireInstance, PlanDestroy, CommitCancel, WaiveRefund;
    hide ScheduleLifecycleTask;
  }

  /** A cancel request, an expiry and a lost operation start from rows that call for them, and keep what they read. */
  lemma ViewsAreRead(w: World, s: Step, r: int)
    ensures var v := Apply(w, s);
            && (r in w.views ==> r in v.views && v.views[r] == w.views[r])
            && (r in v.views && r !in w.views ==> ReadBy(w, s, r, v.views[r]))
  {
    hide ApplyLease, ApplyDesk, ApplyExec, ApplySaga, ApplyRecon, ApplyShop, ReadBy;
    match s
    case OfDesk(d) => DeskReadsNothing(w, d);
    case OfLife(l) =>
      LoadsRead(w, l, r);
      if r in w.views { LoadsKeep(w, l, r); }
    case _ => OthersDiscardNothing(w, s);
  }

  lemma LoadsKeep(w: World, s: LifeStep, r: int)
    requires r in w.views
    ensures r in ApplyLife(w, s).views && ApplyLife(w, s).views[r] == w.views[r]
  {
    hide EvolvesQuietly, RuntimeMove, FinalizeReconciled, ExpireInstance, PlanDestroy, CommitCancel, WaiveRefund;
    hide ScheduleLifecycleTask, MayCancelDestroy, InDoubt, ServiceEnded;
  }

  // ---------- what executions rely on ----------

  /** A destroy relies on the plan in its key; a purge on a retention that was over when it looked. */
  predicate PlanOk(db: Db, x: Exec) {
    && (x.phase.Claimed? ==> x.plan.None?)
    && (x.plan.Some? && x.ticket.Some? ==>
          var row := x.ticket.value;
          (row.action.Destroy? ==> row.key == DestroyKey(row.instance, x.plan.value))
          && (row.action.Purge? ==>
                row.instance in db.instances && db.instances[row.instance].status in {Destroyed, Purged}
                && db.instances[row.instance].purgeAt.Some?
                && db.instances[row.instance].purgeAt.value <= x.plan.value <= db.now))
  }

  ghost predicate PlansOk(w: World) {
    forall e :: e in w.execs ==> PlanOk(w.db, w.execs[e])
  }

  predicate PlanKept(x: Exec, y: Exec) {
    y.plan == x.plan && (y.plan.Some? ==> y.ticket == x.ticket) && (y.phase.Claimed? ==> x.phase.Claimed?)
  }

  ghost predicate PlansKept(a: map<Token, Exec>, b: map<Token, Exec>) {
    a == b || forall e :: e in b ==> (e in a && PlanKept(a[e], b[e])) || b[e].plan.None?
  }

  lemma LeasePlans(w: World, s: LeaseStep)
    requires PlansOk(w)
    ensures PlansKept(w.execs, ApplyLease(w, s).execs)
  {
    hide QueueOnly, Evolves, LeaseExpired, OwnsLease, CanClaim, SameTickets, SameRenewals, FinishedStatus;
    hide Advance, RegisterNode, ClaimTask, RenewTaskLease, RenewInstanceLock, RecoverExpiredLease, FinishTask;
    hide ReleaseInstanceLock;
  }

  lemma ReportPlans(w: World, e: Token)
    ensures PlansKept(w.execs, ApplyReadInstance(w, e).execs) && PlansKept(w.execs, ApplyReport(w, e).execs)
  {
    hide EvolvesQuietly, SameTickets, SameRenewals, ReportRuntime, CanReport, MayReport;
  }

  lemma ExecPlans(w: World, s: ExecStep)
    requires !s.ReadPlan?
    ensures PlansKept(w.execs, ApplyExec(w, s).execs)
  {
    hide EvolvesQuietly, WriteDestroyed, WritePurged, CanWriteDestroyed, CanWritePurged, MayCallAgent;
    hide SameTickets, SameRenewals, ReportRuntime, FenceStates, PurgeDue, PlanInForce, ApplyReadInstance, ApplyReport;
    ReportPlans(w, s.exec);
  }

  lemma SagaPlans(w: World, s: SagaStep)
    ensures PlansKept(w.execs, ApplySaga(w, s).execs)
  {
    hide BooksOnly, OpenChange, RequestCancel, FailChange, Block, SameTickets, SameRenewals, FailsChange, MarksChange;
    hide ApplySettleExec, ApplyCompensateExec;
    match s
    case SettleExec(e, ids) => SettlePlans(w, e, ids);
    case CompensateExec(e) => SettlePlans(w, e, []);
    case _ =>
  }

  lemma SettlePlans(w: World, e: Token, ids: seq<OrderId>)
    ensures PlansKept(w.execs, ApplySettleExec(w, e, ids).execs) && PlansKept(w.execs, ApplyCompensateExec(w, e).execs)
  {
    hide BooksOnly, CompletePlanChange, CompleteCompensation, CanCompensate, SameTickets, SameRenewals;
  }

  lemma ReadPlanOk(w: World, e: Token)
    requires PlansOk(w) && RetentionOk(w.db)
    ensures PlansOk(ApplyReadPlan(w, e))
  {
    hide SameTickets, SameRenewals;
  }

  lemma PlanStays(a: Db, b: Db, x: Exec, y: Exec)
    requires PlanOk(a, x) && PlanKept(x, y) && LivesOn(a, b) && a.now <= b.now && a.instances.Keys <= b.instances.Keys
    ensures PlanOk(b, y)
  {
  }

  lemma SameExecs(w: World, s: Step)
    requires !s.OfLease? && !s.OfExec? && !s.OfSaga?
    ensures Apply(w, s).execs == w.execs
  {
    hide QueueOnly, BooksOnly, EvolvesQuietly, ApplyDesk, ApplyRecon, ApplyLife;
    match s
    case OfDesk(d) => DeskExecs(w, d);
    case OfRecon(r) => ReconExecs(w, r);
    case OfLife(l) => LifeExecs(w, l);
    case OfShop(h) =>
  }

  lemma StepKeepsPlans(w: World, s: Step)
    requires PlansOk(w) && RetentionOk(w.db)
    ensures PlansOk(Apply(w, s))
  {
    hide LivesOn, PlanOk, PlanKept, Evolves, RetentionOk, ApplyLease, ApplyDesk, ApplySaga, ApplyRecon, ApplyShop;
    hide ApplyLife, ApplyReadPlan;
    if s.OfExec? && s.x.ReadPlan? {
      ReadPlanOk(w, s.x.exec);
    } else {
      PlansMoveOn(w, s);
    }
  }

  lemma PlansMoveOn(w: World, s: Step)
    requires PlansOk(w) && !(s.OfExec? && s.x.ReadPlan?)
    ensures PlansOk(Apply(w, s))
  {
    hide LivesOn, PlanKept, Evolves, ApplyLease, ApplyDesk, ApplyExec, ApplySaga, ApplyRecon, ApplyShop, ApplyLife;
    var v := Apply(w, s);
    match s {
      case OfLease(a) => LeasePlans(w, a);
      case OfExec(x) => ExecPlans(w, x);
      case OfSaga(g) => SagaPlans(w, g);
      case _ => SameExecs(w, s);
    }
    StepLivesOn(w, s);
    ClockRuns(w, s);
    forall e | e in v.execs ensures PlanOk(v.db, v.execs[e]) {
      if e in w.execs && (v.execs == w.execs || PlanKept(w.execs[e], v.execs[e])) {
        SameKept(w.execs[e]);
        InstancesStay(w, s);
        PlanStays(w.db, v.db, w.execs[e], v.execs[e]);
      }
    }
  }

  lemma SameKept(x: Exec)
    ensures PlanKept(x, x)
  {
  }

  lemma InstancesStay(w: World, s: Step)
    ensures w.db.instances.Keys <= Apply(w, s).db.instances.Keys
  {
    hide Apply;
    forall i | i in w.db.instances ensures i in Apply(w, s).db.instances {
      StaysKnown(w, s, i);
    }
  }
}
