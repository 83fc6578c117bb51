/**
 Expired plans and the services they end: when the expiry loop keeps to the end of service.
 */
module Expiry {
  import opened Wrappers
  import opened Billing
  import opened Schema
  import opened Evolution
  import opened TaskQueue
  import opened Lifecycle
  import opened Commerce
  import opened World
  import opened Fencing
  import opened Footprints
  import opened Accounting
  import opened Finality
  import opened Lifespan
  import opened Supersession
  import opened Reachable

  /** Whatever is planned to be destroyed because its service ended has no service left. */
  ghost predicate ServicesOver(db: Db) {
    forall i :: i in db.instances && ExpiredPlan(db.instances[i]) ==> db.instances[i].expiresAt < db.now
  }

  /** The expiry loop's update meets an instance whose service goes on; the update could ask. */
  predicate ExpiresEarly(w: World, s: Step) {
    s.OfLife? && s.l.Expire? && s.l.request in w.views && w.views[s.l.request].ExpiryView?
    && var i := w.views[s.l.request].expiring;
       i in w.db.instances && Serving(w.db.instances[i].status) && w.db.now <= w.db.instances[i].expiresAt
  }

  // ---------- who makes expired plans ----------

  /** Expired plans are old ones, for the same end of service. */
  ghost predicate NoneExpires(a: Db, b: Db) {
    a.instances == b.instances
    || forall i :: i in b.instances && ExpiredPlan(b.instances[i]) ==>
         i in a.instances && ExpiredPlan(a.instances[i]) && b.instances[i].expiresAt == a.instances[i].expiresAt
  }

  lemma KeptExpiresNone(a: Db, b: Db)
    requires LifeKept(a, b)
    ensures NoneExpires(a, b)
  {
  }

  lemma DestroyExpiresNone(db: Db, tk: Ticket, plan: Instant)
    ensures NoneExpires(db, WriteDestroyed(db, tk, plan))
  {
    hide EvolvesQuietly, SameMoneyRows, CanWriteDestroyed;
  }

  lemma PurgeExpiresNone(db: Db, tk: Ticket)
    ensures NoneExpires(db, WritePurged(db, tk))
  {
    hide EvolvesQuietly, SameMoneyRows, CanWritePurged;
  }

  lemma ReportExpiresNone(db: Db, i: InstanceId, a: Action, seen: Status)
    requires Reports(a)
    ensures NoneExpires(db, ReportRuntime(db, i, a, seen))
  {
    hide EvolvesQuietly, SameMoneyRows;
  }

  lemma ExecExpiresNone(w: World, s: ExecStep)
    ensures NoneExpires(w.db, ApplyExec(w, s).db)
  {
    hide EvolvesQuietly, WriteDestroyed, WritePurged, CanWriteDestroyed, CanWritePurged, MayCallAgent, NoneExpires;
    hide SameTickets, SameRenewals, ReportRuntime, CanReport, MayReport, FenceStates, PurgeDue, PlanInForce;
    SameExpiresNone(w.db);
    if s.CommitDestroy? || s.CommitPurge? {
      if Has(w, s.exec) {
        var x := w.execs[s.exec];
        DestroyExpiresNone(w.db, TicketOf(x), if x.plan.Some? then x.plan.value else 0);
        PurgeExpiresNone(w.db, TicketOf(x));
      }
    } else if s.Report? {
      if Has(w, s.exec) && w.execs[s.exec].seen.Some? && Reports(w.execs[s.exec].ticket.value.action) {
        var x := w.execs[s.exec];
        ReportExpiresNone(w.db, x.ticket.value.instance, x.ticket.value.action, x.seen.value);
      }
    } else {
      ExecLife(w, s);
    }
  }

  lemma SameExpiresNone(db: Db)
    ensures NoneExpires(db, db)
  {
  }

  lemma NewExpiresNone(db: Db, p: Purchase, d: OwnDeployment)
    ensures NoneExpires(db, PurchaseWithWallet(db, p)) && NoneExpires(db, DeployOwn(db, d))
  {
    hide EvolvesQuietly;
  }

  lemma ShopExpiresNone(w: World, s: ShopStep)
    ensures NoneExpires(w.db, ApplyShop(w, s).db)
  {
    hide EvolvesQuietly, RenewWithWallet, RefundOrder, CanRefund, BlocksRenewal, LockFree, BooksOnly;
    match s
    case Renew(r) =>
      if CanRenew(w.db, r) { RenewEffect(w.db, r); } else { RenewRefused(w.db, r); }
    case RefundStep(o, chain) => RefundRows(w.db, o, chain);
    case _ =>
  }

  lemma CancelExpiresNone(db: Db, i: InstanceId, seen: Runtime)
    ensures NoneExpires(db, CommitCancel(db, i, seen))
  {
    hide EvolvesQuietly, SameMoneyRows, DeferredDestroys;
  }

  lemma MovesExpireNone(db: Db, t: TaskId, lifecycle: Status)
    ensures NoneExpires(db, FinalizeReconciled(db, t, lifecycle))
  {
    hide EvolvesQuietly, SameMoneyRows;
  }

  lemma LifeExpiresNone(w: World, s: LifeStep)
    requires !s.Expire?
    ensures NoneExpires(w.db, ApplyLife(w, s).db)
  {
    hide EvolvesQuietly, SameMoneyRows, MayCancelDestroy, CommitCancel, FinalizeReconciled, InDoubt, ServiceEnded;
    match s
    case Cancel(r) =>
      if r in w.views && w.views[r].CancelView? {
        CancelExpiresNone(w.db, w.views[r].instance, w.views[r].runtime);
      }
    case Reconcile(r) =>
      if r in w.views && w.views[r].OperationView? {
        MovesExpireNone(w.db, w.views[r].task, w.views[r].lifecycle);
      }
    case _ =>
  }

  lemma StepExpiresNone(w: World, s: Step)
    requires !(s.OfLife? && s.l.Expire?)
    ensures NoneExpires(w.db, Apply(w, s).db)
  {
    hide NoneExpires, LifeKept, EvolvesQuietly, ApplyLease, ApplyDesk, ApplyExec, ApplySaga, ApplyRecon, ApplyShop;
    hide ApplyLife;
    match s
    case OfLease(a) => LeaseLife(w, a); KeptExpiresNone(w.db, Apply(w, s).db);
    case OfDesk(d) => DeskLife(w, d); KeptExpiresNone(w.db, Apply(w, s).db);
    case OfExec(x) => ExecExpiresNone(w, x);
    case OfSaga(g) => SagaLife(w, g); KeptExpiresNone(w.db, Apply(w, s).db);
    case OfRecon(r) => ReconLife(w, r); KeptExpiresNone(w.db, Apply(w, s).db);
    case OfShop(h) => ShopExpiresNone(w, h);
    case OfLife(l) => LifeExpiresNone(w, l);
  }

  // ---------- when expired plans are for services that are over ----------

  lemma ExpiryWrites(db: Db, i: InstanceId, seen: Status)
    requires ServicesOver(db)
    ensures ServicesOver(ExpireInstance(db, i, seen)) <==>
            !(i in db.instances && Serving(db.instances[i].status) && db.now <= db.instances[i].expiresAt)
  {
    hide EvolvesQuietly, SameMoneyRows;
    var after := ExpireInstance(db, i, seen);
    if i in db.instances && Serving(db.instances[i].status) {
      assert i in after.instances && ExpiredPlan(after.instances[i]);
      forall j | j in after.instances && j != i ensures after.instances[j] == db.instances[j] {
      }
    }
  }

  lemma OthersStayOver(w: World, s: Step)
    requires ServicesOver(w.db) && !(s.OfLife? && s.l.Expire?)
    ensures ServicesOver(Apply(w, s).db)
  {
    hide Apply;
    StepExpiresNone(w, s);
    ClockRuns(w, s);
  }

  /**
   Expired plans are for services that are over; a step breaks this if and only if it is the
   expiry loop's update of an instance that serves and whose service has not ended.
   */
  lemma ExpiryStep(w: World, s: Step)
    requires ServicesOver(w.db)
    ensures ServicesOver(Apply(w, s).db) <==> !ExpiresEarly(w, s)
  {
    hide ServicesOver, Apply, ExpireInstance;
    if s.OfLife? && s.l.Expire? {
      ExpireApplied(w, s.l.request);
      if s.l.request in w.views && w.views[s.l.request].ExpiryView? {
        ExpiryWrites(w.db, w.views[s.l.request].expiring, w.views[s.l.request].status);
      }
    } else {
      OthersStayOver(w, s);
    }
  }

  lemma ExpireApplied(w: World, r: int)
    ensures Apply(w, OfLife(Expire(r))).db
            == if r in w.views && w.views[r].ExpiryView?
               then ExpireInstance(w.db, w.views[r].expiring, w.views[r].status)
               else w.db
  {
    hide ExpireInstance, EvolvesQuietly;
  }

  /** No expiry of the run is early. */
  ghost predicate TimelyRun(w: World, steps: seq<Step>)
    decreases |steps|
  {
    steps == [] || (!ExpiresEarly(w, steps[0]) && TimelyRun(Apply(w, steps[0]), steps[1..]))
  }

  /** The states of a run after its first step. */
  lemma LaterStates(w: World, steps: seq<Step>)
    requires steps != []
    ensures forall k :: 0 < k <= |steps| ==> Run(w, steps[..k]) == Run(Apply(w, steps[0]), steps[1..][..k - 1])
  {
    hide Apply;
    forall k | 0 < k <= |steps| ensures Run(w, steps[..k]) == Run(Apply(w, steps[0]), steps[1..][..k - 1]) {
      assert steps[..k][0] == steps[0] && steps[..k][1..] == steps[1..][..k - 1];
    }
  }

  /** Over runs: in all states of a run if and only if no expiry of it is early. */
  lemma {:induction false} ExpiryOverRuns(w: World, steps: seq<Step>)
    requires ServicesOver(w.db)
    ensures (forall k :: 0 <= k <= |steps| ==> ServicesOver(Run(w, steps[..k]).db)) <==> TimelyRun(w, steps)
    decreases |steps|
  {
    hide Apply, ServicesOver, ExpiresEarly;
    if steps == [] {
      assert steps[..0] == [];
    } else {
      var v := Apply(w, steps[0]);
      ExpiryStep(w, steps[0]);
      LaterStates(w, steps);
      assert steps[..0] == [] && steps[1..][..0] == [];
      assert Run(w, steps[..1]) == v;
      if ServicesOver(v.db) {
        ExpiryOverRuns(v, steps[1..]);
        if TimelyRun(w, steps) {
          forall k | 0 <= k <= |steps| ensures ServicesOver(Run(w, steps[..k]).db) {
            if k > 0 {
              assert Run(w, steps[..k]) == Run(v, steps[1..][..k - 1]);
            }
          }
        } else {
          var k :| 0 <= k <= |steps[1..]| && !ServicesOver(Run(v, steps[1..][..k]).db);
          assert Run(w, steps[..k + 1]) == Run(v, steps[1..][..k]);
        }
      }
    }
  }

  /** From the empty database on. */
  lemma ExpiredPlansAreOver(now: Instant, steps: seq<Step>)
    ensures TimelyRun(Genesis(now), steps) <==>
            forall k :: 0 <= k <= |steps| ==> ServicesOver(Run(Genesis(now), steps[..k]).db)
  {
    ExpiryOverRuns(Genesis(now), steps);
  }

  /**
   In a run without early expiries no destroy of a plan that a renewal withdrew is ever committed
   later, except for a refund whose own plan falls on the very same instant.
   */
  lemma TimelyRenewalSupersedes(now: Instant, past: seq<Step>, r: Renewal, steps: seq<Step>, tk: Ticket)
    requires TimelyRun(Genesis(now), past)
    requires var db := Run(Genesis(now), past).db;
             CanRenew(db, r) && tk.row.instance == db.orders[r.source].instance
             && ExpiredPlan(db.instances[tk.row.instance]) && db.instances[tk.row.instance].destroyAt.Some?
             && tk.row.key == DestroyKey(tk.row.instance, db.instances[tk.row.instance].destroyAt.value)
    ensures var w := Run(Genesis(now), past);
            var plan := w.db.instances[tk.row.instance].destroyAt.value;
            var v := Run(Apply(w, OfShop(Renew(r))), steps).db;
            WriteDestroyed(v, tk, plan) != v ==> v.instances[tk.row.instance].reason == Some(Refund)
  {
    hide Run, Apply, WriteDestroyed, TimelyRun;
    var w := Run(Genesis(now), past);
    ExpiredPlansAreOver(now, past);
    assert past[..|past|] == past;
    ReachableStatesAreSound(now, past);
    PlanOfService(w, tk.row.instance);
    RenewalSupersedesDestroy(w, r, steps, tk);
  }

  lemma PlanOfService(w: World, i: InstanceId)
    requires SystemInv(w) && i in w.db.instances
    ensures ExpiredPlanOk(w.db.instances[i])
  {
    hide FenceInv, LedgerInv;
  }
}
