/**
 Refunds are final: exactly two kinds of step can bring a refunded instance back into service.
 */
module Finality {
  import opened Wrappers
  import opened Billing
  import opened Refunds
  import opened Schema
  import opened Evolution
  import opened TaskQueue
  import opened Lifecycle
  import opened Commerce
  import opened PlanChange
  import opened World
  import opened History
  import opened Fencing
  import opened Footprints
  import opened Ledger
  import opened Accounting
  import opened Settlement
  import opened OrderNets
  import opened Money

  predicate OutOfService(row: Instance) {
    (row.status == DestroyScheduled && row.reason == Some(Refund)) || row.status == Destroyed || row.status == Purged
  }

  predicate RefundPlanned(db: Db, i: InstanceId) {
    i in db.instances && db.instances[i].status == DestroyScheduled && db.instances[i].reason == Some(Refund)
  }

  /** A cancel request whose checks were made before the refund and whose transaction comes after it. */
  predicate StaleCancel(w: World, s: Step, i: InstanceId) {
    s.OfLife? && s.l.Cancel? && s.l.request in w.views && w.views[s.l.request].CancelView?
    && w.views[s.l.request].instance == i && CanCommitCancel(w.db, i) && RefundPlanned(w.db, i)
  }

  /** A reinstall that read an earlier planned destruction reports back after the refund. */
  predicate StaleReinstall(w: World, s: Step, i: InstanceId) {
    s.OfExec? && s.x.Report? && Has(w, s.x.exec)
    && var x := w.execs[s.x.exec];
       x.phase.Applied? && x.ticket.value.action.Reinstall? && x.ticket.value.instance == i
       && x.seen == Some(DestroyScheduled) && RefundPlanned(w.db, i)
  }

  predicate Revives(w: World, s: Step, i: InstanceId) {
    StaleCancel(w, s, i) || StaleReinstall(w, s, i)
  }

  // ---------- operations in doubt are self-hosted ----------

  /** Only self-hosted operations are ever reconciled by their observed state. */
  ghost predicate ViewsOk(w: World) {
    forall r :: r in w.views && w.views[r].OperationView? ==>
      w.views[r].task in w.db.tasks && SelfHosted(w.db, w.db.tasks[w.views[r].task].instance)
  }

  lemma PlacementStays(a: Db, b: Db, i: InstanceId)
    requires Evolves(a, b) && i in a.instances && a.instances[i].node in a.nodes
    ensures i in b.instances && (SelfHosted(a, i) ==> SelfHosted(b, i)) && (OnPlatform(a, i) ==> OnPlatform(b, i))
  {
  }

  lemma LeaseViews(w: World, s: LeaseStep)
    ensures ApplyLease(w, s).views == w.views
  {
    hide QueueOnly, Evolves, LeaseExpired, OwnsLease, CanClaim, SameTickets, SameRenewals, FinishedStatus;
    hide Advance, RegisterNode, ClaimTask, RenewTaskLease, RenewInstanceLock, RecoverExpiredLease, FinishTask;
    hide ReleaseInstanceLock;
  }

  lemma DeskViews(w: World, s: DeskStep)
    ensures ApplyDesk(w, s).views == w.views
  {
    hide QueueOnly, Evolves, QuarantineFailed, RetryFailed, CancelQueued, CloseReconciled, DiscardForGood;
    hide DiscardReview, ResumeReview, ClearLocksOf, RevokeNode, SwitchNode, QueueAction;
  }

  lemma ExecViews(w: World, s: ExecStep)
    ensures ApplyExec(w, s).views == w.views
  {
    hide EvolvesQuietly, WriteDestroyed, WritePurged, CanWriteDestroyed, CanWritePurged, MayCallAgent, PurgeDue;
    hide PlanInForce, SameTickets, SameRenewals, ReportRuntime, CanReport, MayReport;
  }

  lemma SettleViews(w: World, e: Token, ids: seq<OrderId>)
    ensures ApplySettleExec(w, e, ids).views == w.views && ApplyCompensateExec(w, e).views == w.views
  {
    hide BooksOnly, CompletePlanChange, CompleteCompensation, CanCompensate, SameTickets, SameRenewals;
  }

  lemma SagaViews(w: World, s: SagaStep)
    ensures ApplySaga(w, s).views == w.views
  {
    hide BooksOnly, OpenChange, RequestCancel, FailChange, MarkBlocked, SameTickets, SameRenewals, FailsChange;
    hide MarksChange, ApplySettleExec, ApplyCompensateExec, ActivateOrders;
    match s
    case SettleExec(e, ids) => SettleViews(w, e, ids);
    case CompensateExec(e) => SettleViews(w, e, []);
    case _ =>
  }

  lemma ReconViews(w: World, s: ReconStep)
    ensures ApplyRecon(w, s).views == w.views
  {
    hide BooksOnly, QueueOnly, CompletePlanChange, FailChange, MarkBlocked, ResumeBlocked, RecordObservation;
    hide CloseReviewed, ReleaseInstanceLock, Resumable, CanStartRecon, SameRows;
  }

  lemma LifeViews(w: World, s: LifeStep)
    ensures forall r :: r in ApplyLife(w, s).views && ApplyLife(w, s).views[r].OperationView? ==>
              (r in w.views && w.views[r] == ApplyLife(w, s).views[r]) || InDoubt(w.db, ApplyLife(w, s).views[r].task)
  {
    hide EvolvesQuietly, RuntimeMove, FinalizeReconciled, ExpireInstance, PlanDestroy, CommitCancel, WaiveRefund;
    hide ScheduleLifecycleTask, MayCancelDestroy, InDoubt, ServiceEnded;
  }

  lemma StepViews(w: World, s: Step)
    ensures forall r :: r in Apply(w, s).views && Apply(w, s).views[r].OperationView? ==>
              (r in w.views && w.views[r] == Apply(w, s).views[r]) || InDoubt(w.db, Apply(w, s).views[r].task)
  {
    hide InDoubt, ApplyLease, ApplyDesk, ApplyExec, ApplySaga, ApplyRecon, ApplyShop, ApplyLife;
    match s
    case OfLease(a) => LeaseViews(w, a);
    case OfDesk(d) => DeskViews(w, d);
    case OfExec(x) => ExecViews(w, x);
    case OfSaga(g) => SagaViews(w, g);
    case OfRecon(r) => ReconViews(w, r);
    case OfLife(l) => LifeViews(w, l);
    case OfShop(h) => ShopViews(w, h);
  }

  lemma ShopViews(w: World, s: ShopStep)
    ensures ApplyShop(w, s).views == w.views
  {
    hide EvolvesQuietly, OpenWallet, AdjustWallet, PurchaseWithWallet, RenewWithWallet, RefundOrder, DeployOwn;
    hide ExpireOrders, FailOrders;
  }

  lemma StepKeepsViews(w: World, s: Step)
    requires ViewsOk(w)
    ensures ViewsOk(Apply(w, s))
  {
    hide Apply, Evolves;
    StepViews(w, s);
    StepEvolves(w, s);
    var v := Apply(w, s);
    forall r | r in v.views && v.views[r].OperationView?
      ensures v.views[r].task in v.db.tasks && SelfHosted(v.db, v.db.tasks[v.views[r].task].instance)
    {
      var t := v.views[r].task;
      assert t in w.db.tasks && SelfHosted(w.db, w.db.tasks[t].instance);
      TaskFactsStay(w.db, v.db, t);
      PlacementStays(w.db, v.db, w.db.tasks[t].instance);
    }
  }

  lemma TaskFactsStay(a: Db, b: Db, t: TaskId)
    requires Evolves(a, b) && t in a.tasks
    ensures t in b.tasks && SameTaskFacts(a.tasks[t], b.tasks[t])
  {
  }

  // ---------- one step ----------

  lemma LifeKeptOut(a: Db, b: Db, i: InstanceId)
    requires LifeKept(a, b) && i in a.instances && OutOfService(a.instances[i])
    ensures i in b.instances && OutOfService(b.instances[i])
  {
  }

  lemma ShopKeepsOut(w: World, s: ShopStep, i: InstanceId)
    requires i in w.db.instances && OutOfService(w.db.instances[i])
    ensures var v := ApplyShop(w, s).db; i in v.instances && OutOfService(v.instances[i])
  {
    hide Evolves, EvolvesQuietly, RenewWithWallet, CanRefund, RefundLines, BlocksRenewal;
    match s
    case Renew(r) =>
      if CanRenew(w.db, r) { RenewEffect(w.db, r); } else { RenewRefused(w.db, r); }
    case RefundStep(o, chain) => RefundRows(w.db, o, chain);
    case _ =>
  }

  /** What a refund does to instance rows. */
  lemma RefundRows(db: Db, o: OrderId, chain: seq<OrderId>)
    ensures var after := RefundOrder(db, o, chain);
            CanRefund(db, o, chain) ==>
              var i := db.orders[o].instance;
              i in db.instances && Refundable(db.instances[i])
              && after.instances == db.instances[i := RefundedInstance(db.instances[i], RefundCutoffAt(db.now))]
    ensures !CanRefund(db, o, chain) ==> RefundOrder(db, o, chain) == db
  {
    hide Evolves, RefundLines, ActiveChain, ValidChain, QuotedTotal, LinesTotal, Segments, RefundedInstance;
  }

  lemma WritesKeepOut(db: Db, tk: Ticket, plan: Instant, i: InstanceId)
    requires i in db.instances && OutOfService(db.instances[i])
    ensures var v := WriteDestroyed(db, tk, plan); i in v.instances && OutOfService(v.instances[i])
    ensures var v := WritePurged(db, tk); i in v.instances && OutOfService(v.instances[i])
  {
    hide Evolves, OwnsLease;
  }

  lemma ReportKeepsOut(db: Db, j: InstanceId, a: Action, seen: Status, i: InstanceId)
    requires i in db.instances && OutOfService(db.instances[i]) && Reports(a)
    ensures var v := ReportRuntime(db, j, a, seen);
            i in v.instances
            && (OutOfService(v.instances[i]) <==>
                !(j == i && a.Reinstall? && seen == DestroyScheduled && RefundPlanned(db, i)))
  {
    hide EvolvesQuietly, SameMoneyRows;
  }

  lemma ExecKeepsOut(w: World, s: ExecStep, i: InstanceId)
    requires i in w.db.instances && OutOfService(w.db.instances[i])
    ensures var v := ApplyExec(w, s).db;
            i in v.instances && (OutOfService(v.instances[i]) <==> !StaleReinstall(w, OfExec(s), i))
  {
    hide EvolvesQuietly, WriteDestroyed, WritePurged, CanWriteDestroyed, CanWritePurged, MayCallAgent, OutOfService;
    hide ReportRuntime, CanReport, MayReport, RefundPlanned;
    if s.CommitDestroy? || s.CommitPurge? {
      if Has(w, s.exec) {
        var x := w.execs[s.exec];
        WritesKeepOut(w.db, TicketOf(x), if x.plan.Some? then x.plan.value else 0, i);
      }
    } else if s.Report? {
      if Has(w, s.exec) && w.execs[s.exec].seen.Some? && Reports(w.execs[s.exec].ticket.value.action) {
        var x := w.execs[s.exec];
        ReportKeepsOut(w.db, x.ticket.value.instance, x.ticket.value.action, x.seen.value, i);
      }
    } else {
      ExecLife(w, s);
    }
  }

  /** A reconcile of a self-hosted instance leaves the platform's alone. */
  lemma ReconcileKeepsOut(db: Db, t: TaskId, lifecycle: Status, i: InstanceId)
    requires i in db.instances && OutOfService(db.instances[i]) && OnPlatform(db, i)
    requires t in db.tasks && SelfHosted(db, db.tasks[t].instance)
    ensures var v := FinalizeReconciled(db, t, lifecycle); i in v.instances && OutOfService(v.instances[i])
  {
    hide EvolvesQuietly, SameMoneyRows;
  }

  lemma CancelKeepsOut(db: Db, j: InstanceId, seen: Runtime, i: InstanceId)
    requires i in db.instances && OutOfService(db.instances[i])
    ensures var v := CommitCancel(db, j, seen);
            i in v.instances
            && (OutOfService(v.instances[i]) <==> !(j == i && CanCommitCancel(db, i) && RefundPlanned(db, i)))
  {
    hide EvolvesQuietly, DeferredDestroys;
  }

  lemma PlansKeepOut(w: World, s: LifeStep, i: InstanceId)
    requires i in w.db.instances && OutOfService(w.db.instances[i]) && !s.Reconcile? && !s.Cancel?
    requires !s.LoadCancel? && !s.LoadOperation? && !s.LoadExpiry?
    ensures var v := ApplyLife(w, s).db; i in v.instances && OutOfService(v.instances[i])
  {
    hide EvolvesQuietly, FinalizeReconciled, CommitCancel;
  }

  lemma LifeStepKeepsOut(w: World, s: LifeStep, i: InstanceId)
    requires i in w.db.instances && OutOfService(w.db.instances[i]) && OnPlatform(w.db, i) && ViewsOk(w)
    ensures var v := ApplyLife(w, s).db;
            i in v.instances && (OutOfService(v.instances[i]) <==> !StaleCancel(w, OfLife(s), i))
  {
    hide EvolvesQuietly, MayCancelDestroy, CanCommitCancel, CommitCancel, FinalizeReconciled, OutOfService, InDoubt;
    hide ServiceEnded, RefundPlanned, SelfHosted, OnPlatform;
    match s
    case Reconcile(r) =>
      if r in w.views && w.views[r].OperationView? {
        ReconcileKeepsOut(w.db, w.views[r].task, w.views[r].lifecycle, i);
      }
    case Cancel(r) =>
      if r in w.views && w.views[r].CancelView? {
        CancelKeepsOut(w.db, w.views[r].instance, w.views[r].runtime, i);
      }
    case LoadCancel(r, j) =>
    case LoadOperation(r, t) =>
    case LoadExpiry(r, j) =>
    case _ => PlansKeepOut(w, s, i);
  }

  /**
   The exact condition of finality: an instance of the platform that left service for good is
   brought back by a step if and only if the step is a stale cancel or a stale reinstall of it.
   */
  lemma FinalityStep(w: World, s: Step, i: InstanceId)
    requires i in w.db.instances && OutOfService(w.db.instances[i]) && OnPlatform(w.db, i) && ViewsOk(w)
    ensures var v := Apply(w, s).db; i in v.instances && (OutOfService(v.instances[i]) <==> !Revives(w, s, i))
  {
    hide OutOfService, LifeKept, EvolvesQuietly, ApplyLease, ApplyDesk, ApplyExec, ApplySaga, ApplyRecon, ApplyShop;
    hide ApplyLife, CanCommitCancel, RefundPlanned, OnPlatform, ViewsOk;
    match s
    case OfLease(a) => LeaseLife(w, a); LifeKeptOut(w.db, Apply(w, s).db, i);
    case OfDesk(d) => DeskLife(w, d); LifeKeptOut(w.db, Apply(w, s).db, i);
    case OfExec(x) => ExecKeepsOut(w, x, i);
    case OfSaga(g) => SagaLife(w, g); LifeKeptOut(w.db, Apply(w, s).db, i);
    case OfRecon(r) => ReconLife(w, r); LifeKeptOut(w.db, Apply(w, s).db, i);
    case OfShop(h) => ShopKeepsOut(w, h, i);
    case OfLife(l) => LifeStepKeepsOut(w, l, i);
  }

  /** No step of the run revives what left service. */
  ghost predicate FreshRun(w: World, steps: seq<Step>)
    decreases |steps|
  {
    steps == [] || ((forall i :: !Revives(w, steps[0], i)) && FreshRun(Apply(w, steps[0]), steps[1..]))
  }

  /** Refund finality over runs: out of service, it is never running or stopped again. */
  lemma {:induction false} RefundFinality(w: World, steps: seq<Step>, i: InstanceId)
    requires i in w.db.instances && OutOfService(w.db.instances[i]) && OnPlatform(w.db, i) && ViewsOk(w)
    requires FreshRun(w, steps)
    ensures var v := Run(w, steps).db;
            i in v.instances && OutOfService(v.instances[i]) && !Serving(v.instances[i].status)
    decreases |steps|
  {
    hide Apply, Revives, ViewsOk, OnPlatform, Evolves;
    if steps != [] {
      FinalityStep(w, steps[0], i);
      StepKeepsViews(w, steps[0]);
      StaysOnPlatform(w, steps[0], i);
      RefundFinality(Apply(w, steps[0]), steps[1..], i);
    }
  }

  lemma StaysOnPlatform(w: World, s: Step, i: InstanceId)
    requires OnPlatform(w.db, i)
    ensures OnPlatform(Apply(w, s).db, i)
  {
    hide Apply, Evolves;
    StepEvolves(w, s);
    PlacementStays(w.db, Apply(w, s).db, i);
  }

  // ---------- refunded orders ----------

  ghost predicate NoNewRefund(a: map<OrderId, Order>, b: map<OrderId, Order>) {
    a == b || forall o :: o in b && b[o].status == OrderRefunded ==> o in a && a[o].status == OrderRefunded
  }

  lemma {:induction false} ItemsRefundNothing(s: Ledgered, change: Change, c: ChangeId, items: seq<QuoteItem>,
                                              ids: seq<OrderId>)
    requires |items| == |ids|
    ensures var r := SettleItems(s, change, c, items, ids); r.Some? ==>
              NoNewRefund(s.books.orders, r.value.books.orders)
  {
    if items != [] {
      ItemsRefundNothing(s, change, c, items[..|items| - 1], ids[..|items| - 1]);
    }
  }

  lemma SettlementRefundsNothing(db: Db, tk: Ticket, ids: seq<OrderId>)
    ensures var r := CompletePlanChange(db, tk, ids); r.Committed? ==> NoNewRefund(db.orders, r.db.orders)
  {
    hide Evolves, SettleItems;
    if CompletePlanChange(db, tk, ids).Committed? {
      var c := tk.row.change.value;
      ItemsRefundNothing(OpeningBooks(db, db.changes[c], c), db.changes[c], c, db.changes[c].items, ids);
    }
  }

  lemma SagaRefundsNothing(w: World, s: SagaStep)
    ensures NoNewRefund(w.db.orders, ApplySaga(w, s).db.orders)
  {
    hide EvolvesQuietly, LifeKept, OpenChange, RequestCancel, CompletePlanChange, CompleteCompensation, FailChange;
    hide MarkBlocked, CanCompensate;
    match s
    case SettleExec(e, ids) => if Has(w, e) { SettlementRefundsNothing(w.db, TicketOf(w.execs[e]), ids); }
    case _ =>
  }

  lemma ReconRefundsNothing(w: World, s: ReconStep)
    ensures NoNewRefund(w.db.orders, ApplyRecon(w, s).db.orders)
  {
    hide EvolvesQuietly, LifeKept, CompletePlanChange, FailChange, MarkBlocked, ResumeBlocked, RecordObservation;
    hide CloseReviewed, ReleaseInstanceLock;
    match s
    case SettleRecon(r, ids) =>
      if r in w.recons { SettlementRefundsNothing(w.db, Ticket(w.recons[r].task, w.recons[r].row), ids); }
    case _ =>
  }

  lemma ShopRefundsNothing(w: World, s: ShopStep)
    requires !s.RefundStep?
    ensures NoNewRefund(w.db.orders, ApplyShop(w, s).db.orders)
  {
    hide EvolvesQuietly, RenewWithWallet, BlocksRenewal, RefundOrder;
    match s
    case Renew(r) =>
      if CanRenew(w.db, r) { RenewEffect(w.db, r); } else { RenewRefused(w.db, r); }
    case _ =>
  }

  lemma StepRefundsNothing(w: World, s: Step)
    requires !(s.OfShop? && s.h.RefundStep?)
    ensures NoNewRefund(w.db.orders, Apply(w, s).db.orders)
  {
    hide LifeKept, Evolves, EvolvesQuietly, NoNewRefund, ApplyLease, ApplyDesk, ApplyExec, ApplySaga, ApplyRecon;
    hide ApplyShop, ApplyLife;
    assert NoNewRefund(w.db.orders, w.db.orders) by { SameOrdersRefundNothing(w.db.orders); }
    match s
    case OfLease(a) => LeaseLife(w, a);
    case OfDesk(d) => DeskLife(w, d);
    case OfExec(x) => ExecLife(w, x);
    case OfSaga(g) => SagaRefundsNothing(w, g);
    case OfRecon(r) => ReconRefundsNothing(w, r);
    case OfShop(h) => ShopRefundsNothing(w, h);
    case OfLife(l) => LifeMoney(w, l);
  }

  lemma SameOrdersRefundNothing(a: map<OrderId, Order>)
    ensures NoNewRefund(a, a)
  {
  }

  /** Every refunded order's instance is out of service. */
  ghost predicate RefundedOut(db: Db) {
    forall o :: o in db.orders && db.orders[o].status == OrderRefunded ==>
      db.orders[o].instance in db.instances && OutOfService(db.instances[db.orders[o].instance])
  }

  ghost predicate NeverRevives(w: World, s: Step) {
    forall i :: !Revives(w, s, i)
  }

  lemma OrderFactsStay(a: Db, b: Db, o: OrderId)
    requires Evolves(a, b) && o in a.orders
    ensures o in b.orders && SameOrderFacts(a.orders[o], b.orders[o])
  {
  }

  lemma OrderOnPlatform(db: Db, o: OrderId)
    requires LedgerInv(db) && o in db.orders
    ensures OnPlatform(db, db.orders[o].instance)
  {
  }

  lemma StepKeepsRefundedOut(w: World, s: Step)
    requires RefundedOut(w.db) && NeverRevives(w, s) && LedgerInv(w.db) && ViewsOk(w)
    ensures RefundedOut(Apply(w, s).db)
  {
    hide Apply, Revives, Evolves, OutOfService, LedgerInv, ViewsOk, OnPlatform;
    var v := Apply(w, s).db;
    StepEvolves(w, s);
    forall o | o in v.orders && v.orders[o].status == OrderRefunded
      ensures v.orders[o].instance in v.instances && OutOfService(v.instances[v.orders[o].instance])
    {
      if o in w.db.orders && w.db.orders[o].status == OrderRefunded {
        OrderFactsStay(w.db, v, o);
        OrderOnPlatform(w.db, o);
        FinalityStep(w, s, w.db.orders[o].instance);
      } else if s.OfShop? && s.h.RefundStep? {
        RefundPutsOut(w, s, o);
      } else {
        StepRefundsNothing(w, s);
      }
    }
  }

  lemma RefundPutsOut(w: World, s: Step, o: OrderId)
    requires s.OfShop? && s.h.RefundStep? && o in Apply(w, s).db.orders
             && Apply(w, s).db.orders[o].status == OrderRefunded
    requires !(o in w.db.orders && w.db.orders[o].status == OrderRefunded)
    ensures var v := Apply(w, s).db;
            v.orders[o].instance in v.instances && OutOfService(v.instances[v.orders[o].instance])
  {
    RefundedChain(w.db, s.h.order, s.h.chain, o);
  }

  lemma RefundedChain(db: Db, order: OrderId, chain: seq<OrderId>, o: OrderId)
    requires var after := RefundOrder(db, order, chain); o in after.orders && after.orders[o].status == OrderRefunded
    requires !(o in db.orders && db.orders[o].status == OrderRefunded)
    ensures var after := RefundOrder(db, order, chain);
            after.orders[o].instance in after.instances && OutOfService(after.instances[after.orders[o].instance])
  {
    hide Evolves, RefundLines, ValidChain, QuotedTotal, LinesTotal, Segments, RefundCutoffAt;
    RefundRows(db, order, chain);
    if CanRefund(db, order, chain) {
      var user, cutoff := db.orders[order].owner, RefundCutoffAt(db.now);
      ChainIds(db, chain, o);
      LinesTouch(Books(db.orders, db.ledger, db.wallets[user]), user, Segments(db, chain), cutoff, o);
    }
  }

  lemma ChainIds(db: Db, chain: seq<OrderId>, o: OrderId)
    requires forall k :: 0 <= k < |chain| ==> chain[k] in db.orders
    ensures forall k :: 0 <= k < |Segments(db, chain)| ==> Segments(db, chain)[k].id in db.orders
    ensures (exists k :: 0 <= k < |Segments(db, chain)| && Segments(db, chain)[k].id == o) ==> o in chain
  {
  }

  /** Only orders of the chain are touched by its lines. */
  lemma {:induction false} LinesTouch(b: Books, user: UserId, segments: seq<Segment>, cutoff: Instant, o: OrderId)
    requires forall k :: 0 <= k < |segments| ==> segments[k].id in b.orders
    ensures var after := RefundLines(b, user, segments, cutoff);
            (forall k :: 0 <= k < |segments| ==> segments[k].id != o) && o in b.orders ==>
              after.orders[o] == b.orders[o]
  {
    hide RefundAmountForSegment;
    if segments != [] {
      LinesTouch(b, user, segments[..|segments| - 1], cutoff, o);
    }
  }

  // ---------- what is in flight over a refunded order ----------

  /** What finality rests on. */
  ghost predicate FinalInv(w: World) {
    FenceInv(w) && Linked(w.db) && LedgerInv(w.db) && ViewsOk(w) && RefundedOut(w.db)
  }

  lemma StepKeepsFinal(w: World, s: Step)
    requires FinalInv(w) && NeverRevives(w, s)
    ensures FinalInv(Apply(w, s))
  {
    hide FenceInv, Linked, LedgerInv, RefundedOut, ViewsOk, Apply;
    StepKeepsFence(w, s);
    StepKeepsLinks(w, s);
    StepKeepsLedger(w, s);
    StepKeepsViews(w, s);
    StepKeepsRefundedOut(w, s);
  }

  /** A change in flight can settle only while its instance serves, so it pays no refunded order back again. */
  lemma SettlesUnrefunded(db: Db, tk: Ticket)
    requires TicketOk(db, tk.id, tk.row) && Linked(db) && LedgerInv(db) && RefundedOut(db) && CanSettle(db, tk)
    ensures !PaysTwice(db, tk.row.change.value)
  {
    hide SagaInv, WalletsOk, KeysOwned, EntriesOwned;
    var c := tk.row.change.value;
    assert TaskLinked(db, tk.id) && db.changes[c].instance == tk.row.instance;
    ItemsOf(db, c);
    forall k | 0 <= k < |db.changes[c].items| ensures SourceUnrefunded(db, db.changes[c].items[k]) {
      assert ItemOk(db, db.changes[c], db.changes[c].items[k]);
    }
  }

  lemma ExecTicketOk(w: World, e: Token)
    requires FenceInv(w) && Has(w, e)
    ensures TicketOk(w.db, w.execs[e].task, w.execs[e].ticket.value)
  {
  }

  lemma ReconTicketOk(w: World, r: int)
    requires FenceInv(w) && r in w.recons
    ensures TicketOk(w.db, w.recons[r].task, w.recons[r].row) && w.recons[r].row.change == Some(w.recons[r].change)
  {
  }
}
