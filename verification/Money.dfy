/**
 Money over runs: the ledger invariant and the saga's conservation hold in every reachable state.
 */
module Money {
  import opened Wrappers
  import opened Billing
  import opened Schema
  import opened Evolution
  import opened TaskQueue
  import opened Commerce
  import opened PlanChange
  import opened World
  import opened History
  import opened Footprints
  import opened Ledger
  import opened Accounting
  import opened Settlement
  import opened Crediting

  lemma OutsideKeepsLedger(w: World, s: Step)
    requires LedgerInv(w.db) && (s.OfLease? || s.OfDesk? || s.OfExec? || s.OfLife?)
    ensures LedgerInv(Apply(w, s).db)
  {
    hide LedgerInv, Evolves, ApplyLease, ApplyDesk, ApplyExec, ApplyLife;
    StepEvolves(w, s);
    match s {
      case OfLease(a) => LeaseLife(w, a);
      case OfDesk(d) => DeskLife(w, d);
      case OfExec(x) => ExecLife(w, x);
      case OfLife(l) => LifeMoney(w, l);
    }
    ElsewhereKeeps(w.db, Apply(w, s).db);
  }

  lemma SettleStepKeeps(db: Db, tk: Ticket, ids: seq<OrderId>)
    requires LedgerInv(db)
    ensures var r := CompletePlanChange(db, tk, ids); r.Committed? ==> LedgerInv(r.db)
  {
    hide LedgerInv, CompletePlanChange;
    if CompletePlanChange(db, tk, ids).Committed? {
      SettlementKeeps(db, tk, ids);
    }
  }

  lemma BlockStepKeeps(w: World, c: Option<ChangeId>)
    requires LedgerInv(w.db)
    ensures LedgerInv(Block(w, c).db)
  {
    hide LedgerInv, MarkBlocked;
    if c.Some? {
      BlockKeeps(w.db, c.value);
    }
  }

  lemma SagaKeepsLedger(w: World, s: SagaStep)
    requires LedgerInv(w.db)
    ensures LedgerInv(ApplySaga(w, s).db)
  {
    hide LedgerInv, OpenChange, RequestCancel, CompletePlanChange, CompleteCompensation, FailChange, Block;
    hide CanCompensate, ActivateOrders;
    match s
    case Open(p) => OpenKeeps(w.db, p);
    case RequestCompensation(c, t) => RequestCancelKeeps(w.db, c, t);
    case SettleExec(e, ids) => if Has(w, e) { SettleStepKeeps(w.db, TicketOf(w.execs[e]), ids); }
    case CompensateExec(e) => if Has(w, e) { CompensationKeeps(w.db, TicketOf(w.execs[e])); }
    case BlockExec(e) => if Has(w, e) { BlockStepKeeps(w, w.execs[e].ticket.value.change); }
    case MarkObserving(e) => if Has(w, e) { BlockStepKeeps(w, w.execs[e].ticket.value.change); }
    case FailDeployment(e) =>
      if Has(w, e) && w.execs[e].ticket.value.change.Some? {
        FailKeeps(w.db, w.execs[e].ticket.value.change.value);
      }
    case SettleDiscarded(t) =>
      if t in w.db.tasks && w.db.tasks[t].change.Some? {
        FailKeeps(w.db, w.db.tasks[t].change.value);
        BlockStepKeeps(w, w.db.tasks[t].change);
      }
    case ActivateExec(e) => if Has(w, e) { ActivateKeeps(w.db, w.execs[e].ticket.value.instance); }
  }

  lemma ReconKeepsLedger(w: World, s: ReconStep)
    requires LedgerInv(w.db)
    ensures LedgerInv(ApplyRecon(w, s).db)
  {
    hide LedgerInv, CompletePlanChange, FailChange, Block, ResumeBlocked, RecordObservation, CloseReviewed;
    hide ReleaseInstanceLock;
    match s
    case StartRecon(r, t) =>
    case Inspect(r, seen) =>
      if r in w.recons {
        BlockStepKeeps(w, Some(w.recons[r].change));
        if seen.Some? { ObserveKeeps(w.db, w.recons[r].change, seen.value); }
      }
    case Decide(r) =>
      if r in w.recons {
        BlockStepKeeps(w, Some(w.recons[r].change));
        ResumeKeeps(w.db, w.recons[r].change);
      }
    case SettleRecon(r, ids) =>
      if r in w.recons {
        SettleStepKeeps(w.db, Ticket(w.recons[r].task, w.recons[r].row), ids);
        FailKeeps(w.db, w.recons[r].change);
      }
    case BlockRecon(r) => if r in w.recons { BlockStepKeeps(w, Some(w.recons[r].change)); }
    case CloseRecon(r) =>
      if r in w.recons && w.recons[r].phase.Closing? {
        var after := CloseReviewed(w.db, w.recons[r].task, w.recons[r].phase.settled);
        ElsewhereKeeps(w.db, after);
      }
    case UnlockRecon(r) =>
      if r in w.recons {
        ElsewhereKeeps(w.db, ReleaseInstanceLock(w.db, Ticket(w.recons[r].task, w.recons[r].row)));
      }
  }

  lemma ShopKeepsLedger(w: World, s: ShopStep)
    requires LedgerInv(w.db)
    ensures LedgerInv(ApplyShop(w, s).db)
  {
    hide LedgerInv, OpenWallet, AdjustWallet, PurchaseWithWallet, RenewWithWallet, RefundOrder, MoveOrders;
    match s
    case SignIn(user) => OpenWalletKeeps(w.db, user);
    case Adjust(user, amount) => AdjustKeeps(w.db, user, amount);
    case Buy(p) => PurchaseKeeps(w.db, p);
    case Renew(r) => RenewKeeps(w.db, r);
    case RefundStep(o, chain) => RefundKeeps(w.db, o, chain);
    case Deploy(d) => DeployKeeps(w.db, d);
    case ExpireOrdersStep(i) => MoveOrdersKeeps(w.db, i, {OrderActive, OrderDeploying}, OrderExpired);
    case FailOrdersStep(i) => MoveOrdersKeeps(w.db, i, {OrderDeploying}, OrderDeployFailed);
  }

  lemma StepKeepsLedger(w: World, s: Step)
    requires LedgerInv(w.db)
    ensures LedgerInv(Apply(w, s).db)
  {
    hide LedgerInv, ApplySaga, ApplyRecon, ApplyShop;
    match s
    case OfSaga(g) => SagaKeepsLedger(w, g);
    case OfRecon(r) => ReconKeepsLedger(w, r);
    case OfShop(h) => ShopKeepsLedger(w, h);
    case _ => OutsideKeepsLedger(w, s);
  }

  lemma {:induction false} RunKeepsLedger(w: World, steps: seq<Step>)
    requires LedgerInv(w.db)
    ensures LedgerInv(Run(w, steps).db)
    decreases |steps|
  {
    hide LedgerInv, Apply;
    if steps != [] {
      StepKeepsLedger(w, steps[0]);
      RunKeepsLedger(Apply(w, steps[0]), steps[1..]);
    }
  }

  // ---------- the theorems ----------

  /**
   In every reachable state wallets are non-negative sums of their entries and every entry's
   balance-after is a prefix sum.
   */
  lemma LedgerIsConsistent(now: Instant, steps: seq<Step>)
    ensures var db := Run(Genesis(now), steps).db;
            && (forall u :: u in db.wallets ==> 0 <= db.wallets[u] == Total(db.ledger, OfUser(u)))
            && (forall k :: 0 <= k < |db.ledger| ==>
                  0 <= db.ledger[k].after == Total(db.ledger[..k + 1], OfUser(db.ledger[k].user)))
  {
    hide Run;
    assert LedgerInv(Genesis(now).db);
    RunKeepsLedger(Genesis(now), steps);
  }

  /**
   Saga conservation in every reachable state: minus the reservation while open, zero once
   failed, refunds minus charges once succeeded, and the held amount released exactly once.
   */
  lemma SagaConservation(now: Instant, steps: seq<Step>, c: ChangeId)
    requires c in Run(Genesis(now), steps).db.changes
    ensures var db := Run(Genesis(now), steps).db;
            var change := db.changes[c];
            && change.reservation == SumCharges(change.items)
            && (change.status in {Processing, InReview} ==>
                  Total(db.ledger, HeldFor(c)) == -change.reservation
                  && Total(db.ledger, OfChange(c)) == -change.reservation)
            && (change.status == ChangeFailed ==>
                  Total(db.ledger, HeldFor(c)) == 0 && Total(db.ledger, OfChange(c)) == 0
                  && change.funds == FundsReleased)
            && (change.status == ChangeSucceeded ==>
                  Total(db.ledger, HeldFor(c)) == 0
                  && Total(db.ledger, OfChange(c)) == SumRefunds(change.items) - SumCharges(change.items)
                  && change.funds == FundsSettled)
  {
    hide Run;
    assert LedgerInv(Genesis(now).db);
    RunKeepsLedger(Genesis(now), steps);
    assert Conserved(Run(Genesis(now), steps).db, c);
    assert ChangePlaced(Run(Genesis(now), steps).db, c);
  }
}
