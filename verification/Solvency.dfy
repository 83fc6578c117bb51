/**
 No money pump: exactly one kind of step credits an order beyond its price, and without it a
 wallet never holds more than administrators put in.
 */
module Solvency {
  import opened Wrappers
  import opened Billing
  import opened Schema
  import opened Evolution
  import opened TaskQueue
  import opened Lifecycle
  import opened Commerce
  import opened PlanChange
  import opened World
  import opened History
  import opened Fencing
  import opened Footprints
  import opened Ledger
  import opened Accounting
  import opened Crediting
  import opened OrderNets
  import opened Money
  import opened Finality

  // ---------- one step ----------

  /** The settlement commits although an item of it pays back an order that was refunded. */
  ghost predicate SettlesTwice(db: Db, tk: Ticket, ids: seq<OrderId>) {
    CompletePlanChange(db, tk, ids).Committed? && tk.row.change.Some? && PaysTwice(db, tk.row.change.value)
  }

  ghost predicate CreditsTwice(w: World, s: Step) {
    match s
    case OfSaga(SettleExec(e, ids)) =>
      Has(w, e) && w.execs[e].phase.Applied? && w.execs[e].ticket.value.action.Resize?
      && SettlesTwice(w.db, TicketOf(w.execs[e]), ids)
    case OfRecon(SettleRecon(r, ids)) =>
      r in w.recons && w.recons[r].phase.Resumed? && w.recons[r].change in w.db.changes
      && w.recons[r].phase.seen == w.db.changes[w.recons[r].change].target
      && SettlesTwice(w.db, Ticket(w.recons[r].task, w.recons[r].row), ids)
    case _ => false
  }

  lemma SettledNets(db: Db, tk: Ticket, ids: seq<OrderId>)
    requires LedgerInv(db) && OrdersInv(db)
    ensures var r := CompletePlanChange(db, tk, ids); r.Committed? ==> (OrdersInv(r.db) <==> !SettlesTwice(db, tk, ids))
  {
    hide LedgerInv, OrdersInv, PaysTwice, SettleItems, CanSettle, OpeningBooks, BooksOnly, CommitBooks;
    if CompletePlanChange(db, tk, ids).Committed? {
      SettlementNets(db, tk, ids);
    }
  }

  lemma BlockNets(w: World, c: Option<ChangeId>)
    requires OrdersInv(w.db)
    ensures OrdersInv(Block(w, c).db)
  {
    hide OrdersInv, Evolves;
    if c.Some? {
      ElsewhereNets(w.db, MarkBlocked(w.db, c.value));
    }
  }

  lemma SagaNets(w: World, s: SagaStep)
    requires LedgerInv(w.db) && OrdersInv(w.db)
    ensures OrdersInv(ApplySaga(w, s).db) <==> !CreditsTwice(w, OfSaga(s))
  {
    hide LedgerInv, OrdersInv, SettlesTwice, OpenChange, RequestCancel, CompletePlanChange, CompleteCompensation;
    hide FailChange, Block, CanCompensate, ActivateOrders;
    match s
    case Open(p) => OpenNets(w.db, p);
    case RequestCompensation(c, t) => RequestCancelNets(w.db, c, t);
    case SettleExec(e, ids) =>
      if Has(w, e) {
        SettledNets(w.db, TicketOf(w.execs[e]), ids);
        OnlyCommits(w.db, TicketOf(w.execs[e]), ids);
      }
    case CompensateExec(e) => if Has(w, e) { CompensationNets(w.db, TicketOf(w.execs[e])); }
    case BlockExec(e) => if Has(w, e) { BlockNets(w, w.execs[e].ticket.value.change); }
    case MarkObserving(e) => if Has(w, e) { BlockNets(w, w.execs[e].ticket.value.change); }
    case FailDeployment(e) =>
      if Has(w, e) && w.execs[e].ticket.value.change.Some? {
        CancelNets(w.db, w.execs[e].ticket.value.change.value);
      }
    case SettleDiscarded(t) =>
      if t in w.db.tasks && w.db.tasks[t].change.Some? {
        CancelNets(w.db, w.db.tasks[t].change.value);
        BlockNets(w, w.db.tasks[t].change);
      }
    case ActivateExec(e) => if Has(w, e) { ActivateNets(w.db, w.execs[e].ticket.value.instance); }
  }

  lemma OnlyCommits(db: Db, tk: Ticket, ids: seq<OrderId>)
    ensures SettlesTwice(db, tk, ids) ==> CompletePlanChange(db, tk, ids).Committed?
  {
    hide PaysTwice, CompletePlanChange;
  }

  lemma ActivateNets(db: Db, i: InstanceId)
    requires OrdersInv(db)
    ensures OrdersInv(ActivateOrders(db, i))
  {
    hide OrdersInv, MoveOrders;
    MoveOrdersNets(db, i, {OrderDeploying}, OrderActive);
  }

  lemma ReconNets(w: World, s: ReconStep)
    requires LedgerInv(w.db) && OrdersInv(w.db)
    ensures OrdersInv(ApplyRecon(w, s).db) <==> !CreditsTwice(w, OfRecon(s))
  {
    hide LedgerInv, OrdersInv, Evolves, SettlesTwice, CompletePlanChange, FailChange, Block, CloseReviewed;
    hide ReleaseInstanceLock;
    if !s.StartRecon? && s.recon in w.recons {
      var x := w.recons[s.recon];
      BlockNets(w, Some(x.change));
      match s
      case Inspect(r, seen) => if seen.Some? { ElsewhereNets(w.db, RecordObservation(w.db, x.change, seen.value)); }
      case Decide(r) => ElsewhereNets(w.db, ResumeBlocked(w.db, x.change));
      case SettleRecon(r, ids) =>
        SettledNets(w.db, Ticket(x.task, x.row), ids);
        OnlyCommits(w.db, Ticket(x.task, x.row), ids);
        CancelNets(w.db, x.change);
      case CloseRecon(r) => if x.phase.Closing? { ElsewhereNets(w.db, CloseReviewed(w.db, x.task, x.phase.settled)); }
      case UnlockRecon(r) => ElsewhereNets(w.db, ReleaseInstanceLock(w.db, Ticket(x.task, x.row)));
      case _ =>
    }
  }

  lemma ShopKeepsNets(w: World, s: ShopStep)
    requires LedgerInv(w.db) && OrdersInv(w.db)
    ensures OrdersInv(ApplyShop(w, s).db)
  {
    hide LedgerInv, OrdersInv, OpenWallet, AdjustWallet, PurchaseWithWallet, RenewWithWallet, RefundOrder, MoveOrders;
    hide DeployOwn;
    match s
    case SignIn(user) => ShopNets(w.db, user, 0);
    case Adjust(user, amount) => ShopNets(w.db, user, amount);
    case Buy(p) => PurchaseNets(w.db, p);
    case Renew(r) => RenewNets(w.db, r);
    case RefundStep(o, chain) => RefundKeeps(w.db, o, chain);
    case Deploy(d) => DeployKeeps(w.db, d); ElsewhereNets(w.db, DeployOwn(w.db, d));
    case ExpireOrdersStep(i) => MoveOrdersNets(w.db, i, {OrderActive, OrderDeploying}, OrderExpired);
    case FailOrdersStep(i) => MoveOrdersNets(w.db, i, {OrderDeploying}, OrderDeployFailed);
  }

  lemma OutsideKeepsNets(w: World, s: Step)
    requires OrdersInv(w.db) && (s.OfLease? || s.OfDesk? || s.OfExec? || s.OfLife?)
    ensures OrdersInv(Apply(w, s).db)
  {
    hide OrdersInv, LifeKept, ApplyLease, ApplyDesk, ApplyExec, ApplyLife;
    match s {
      case OfLease(a) => LeaseLife(w, a);
      case OfDesk(d) => DeskLife(w, d);
      case OfExec(x) => ExecLife(w, x);
      case OfLife(l) => LifeMoney(w, l);
    }
    ElsewhereNets(w.db, Apply(w, s).db);
  }

  /** Every order stays within its price in a step if and only if the step does not settle twice. */
  lemma StepNets(w: World, s: Step)
    requires LedgerInv(w.db) && OrdersInv(w.db)
    ensures OrdersInv(Apply(w, s).db) <==> !CreditsTwice(w, s)
  {
    hide LedgerInv, OrdersInv, SettlesTwice, ApplyLease, ApplyDesk, ApplyExec, ApplySaga, ApplyRecon, ApplyShop;
    hide ApplyLife;
    match s
    case OfSaga(g) => SagaNets(w, g);
    case OfRecon(r) => ReconNets(w, r);
    case OfShop(h) => ShopKeepsNets(w, h);
    case _ => OutsideKeepsNets(w, s);
  }

  // ---------- runs ----------

  /** No settlement of the run pays a refunded order back again. */
  ghost predicate CleanRun(w: World, steps: seq<Step>)
    decreases |steps|
  {
    steps == [] || (!CreditsTwice(w, steps[0]) && CleanRun(Apply(w, steps[0]), steps[1..]))
  }

  lemma CreditingSpoils(w: World, s: Step)
    requires LedgerInv(w.db) && CreditsTwice(w, s)
    ensures exists o :: Spoiled(Apply(w, s).db, o)
  {
    hide LedgerInv, Spoiled, PaysTwice, CompletePlanChange, BooksOnly, SameTickets, SameRenewals, SameRows;
    match s
    case OfSaga(SettleExec(e, ids)) =>
      PaidTwiceSpoils(w.db, TicketOf(w.execs[e]), ids);
      assert Apply(w, s).db == CompletePlanChange(w.db, TicketOf(w.execs[e]), ids).db;
    case OfRecon(SettleRecon(r, ids)) =>
      PaidTwiceSpoils(w.db, Ticket(w.recons[r].task, w.recons[r].row), ids);
      assert Apply(w, s).db == CompletePlanChange(w.db, Ticket(w.recons[r].task, w.recons[r].row), ids).db;
  }

  lemma SpoiledForever(w: World, steps: seq<Step>, o: OrderId)
    requires Spoiled(w.db, o)
    ensures Spoiled(Run(w, steps).db, o)
  {
    hide Run;
    RunEvolves(w, steps);
    RefundStays(w.db, Run(w, steps).db, o);
  }

  /**
   The exact condition over runs: every order's account is within its price, with at most one
   credit, at the end if and only if no settlement of the run paid a refunded order back again.
   */
  lemma {:induction false} RunNets(w: World, steps: seq<Step>)
    requires LedgerInv(w.db) && OrdersInv(w.db)
    ensures LedgerInv(Run(w, steps).db) && (OrdersInv(Run(w, steps).db) <==> CleanRun(w, steps))
    decreases |steps|
  {
    hide LedgerInv, OrdersInv, CreditsTwice, Spoiled, Apply;
    RunKeepsLedger(w, steps);
    if steps != [] {
      StepNets(w, steps[0]);
      StepKeepsLedger(w, steps[0]);
      if CreditsTwice(w, steps[0]) {
        CreditingSpoils(w, steps[0]);
        var o :| Spoiled(Apply(w, steps[0]).db, o);
        SpoiledForever(Apply(w, steps[0]), steps[1..], o);
        SpoiledBreaks(Run(w, steps).db, o);
      } else {
        RunNets(Apply(w, steps[0]), steps[1..]);
      }
    }
  }

  /** While refunds are final nothing is paid back twice. */
  lemma FinalIsClean(w: World, s: Step)
    requires FinalInv(w)
    ensures !CreditsTwice(w, s)
  {
    hide FenceInv, Linked, LedgerInv, RefundedOut, ViewsOk, PaysTwice;
    match s
    case OfSaga(SettleExec(e, ids)) =>
      if Has(w, e) {
        ExecTicketOk(w, e);
        SettlesOnce(w.db, TicketOf(w.execs[e]), ids);
      }
    case OfRecon(SettleRecon(r, ids)) =>
      if r in w.recons {
        ReconTicketOk(w, r);
        SettlesOnce(w.db, Ticket(w.recons[r].task, w.recons[r].row), ids);
      }
    case _ =>
  }

  lemma SettlesOnce(db: Db, tk: Ticket, ids: seq<OrderId>)
    requires TicketOk(db, tk.id, tk.row) && Linked(db) && LedgerInv(db) && RefundedOut(db)
    ensures !SettlesTwice(db, tk, ids)
  {
    hide LedgerInv, RefundedOut, Linked, TicketOk, PaysTwice, CanSettle, SettleItems, BooksOnly, OpeningBooks;
    if CompletePlanChange(db, tk, ids).Committed? {
      SettlesUnrefunded(db, tk);
    }
  }

  /** A run in which nothing revives a refunded instance is clean. */
  lemma {:induction false} FreshRunIsClean(w: World, steps: seq<Step>)
    requires FinalInv(w) && FreshRun(w, steps)
    ensures CleanRun(w, steps) && FinalInv(Run(w, steps))
    decreases |steps|
  {
    hide FinalInv, CreditsTwice, Revives, Apply;
    if steps != [] {
      FinalIsClean(w, steps[0]);
      StepKeepsFinal(w, steps[0]);
      FreshRunIsClean(Apply(w, steps[0]), steps[1..]);
    }
  }

  // ---------- the wallet bound ----------

  /** Every entry serves exactly one purpose: an order, a change's hold, or an adjustment. */
  function PurposeOf(e: Entry): Account {
    if e.order.Some? then OfOrder(e.order.value)
    else if e.change.Some? then HeldFor(e.change.value)
    else ByAdmin(e.user)
  }

  /** What a user's entries for some purposes add up to. */
  function Part(ledger: seq<Entry>, user: UserId, purposes: set<Account>): int {
    if ledger == [] then 0
    else
      var last := ledger[|ledger| - 1];
      Part(ledger[..|ledger| - 1], user, purposes)
      + if last.user == user && PurposeOf(last) in purposes then last.amount else 0
  }

  lemma {:induction false} PartSplits(ledger: seq<Entry>, user: UserId, purposes: set<Account>, a: Account)
    requires a in purposes
    ensures Part(ledger, user, purposes) == Part(ledger, user, purposes - {a}) + Part(ledger, user, {a})
  {
    if ledger != [] {
      PartSplits(ledger[..|ledger| - 1], user, purposes, a);
    }
  }

  lemma {:induction false} PartOfAll(ledger: seq<Entry>, user: UserId, purposes: set<Account>)
    requires forall k :: 0 <= k < |ledger| ==> PurposeOf(ledger[k]) in purposes
    ensures Part(ledger, user, purposes) == Total(ledger, OfUser(user))
  {
    if ledger != [] {
      PartOfAll(ledger[..|ledger| - 1], user, purposes);
    }
  }

  lemma {:induction false} PartOfOwner(ledger: seq<Entry>, user: UserId, a: Account, owned: bool)
    requires forall k :: 0 <= k < |ledger| && PurposeOf(ledger[k]) == a ==> (owned <==> ledger[k].user == user)
    requires a.OfOrder? || a.HeldFor? || a == ByAdmin(user)
    ensures Part(ledger, user, {a}) == if owned then Total(ledger, a) else 0
  {
    if ledger != [] {
      PartOfOwner(ledger[..|ledger| - 1], user, a, owned);
    }
  }

  lemma {:induction false} PartOfNone(ledger: seq<Entry>, user: UserId)
    ensures Part(ledger, user, {}) == 0
  {
    if ledger != [] {
      PartOfNone(ledger[..|ledger| - 1], user);
    }
  }

  /** If no purpose but adjustments brings money in, the whole is at most the adjustments. */
  lemma {:induction false} PartBound(ledger: seq<Entry>, user: UserId, purposes: set<Account>)
    requires forall a :: a in purposes && a != ByAdmin(user) ==> Part(ledger, user, {a}) <= 0
    ensures Part(ledger, user, purposes) <= if ByAdmin(user) in purposes then Part(ledger, user, {ByAdmin(user)}) else 0
    decreases |purposes|
  {
    if purposes == {} {
      PartOfNone(ledger, user);
    } else {
      var a :| a in purposes;
      PartSplits(ledger, user, purposes, a);
      PartBound(ledger, user, purposes - {a});
    }
  }

  lemma OrderPart(db: Db, user: UserId, o: OrderId)
    requires BooksInv(db) && OrdersInv(db)
    ensures Part(db.ledger, user, {OfOrder(o)}) <= 0
  {
    hide WalletsOk, KeysOwned, ChangePlaced;
    assert forall k :: 0 <= k < |db.ledger| ==> EntryOwned(db, db.ledger[k]);
    if o in db.orders {
      assert OrderNet(db, o);
      PartOfOwner(db.ledger, user, OfOrder(o), db.orders[o].owner == user);
    } else {
      Untouched(db.ledger, OfOrder(o));
      PartOfOwner(db.ledger, user, OfOrder(o), true);
    }
  }

  lemma HoldPart(db: Db, user: UserId, c: ChangeId)
    requires LedgerInv(db)
    ensures Part(db.ledger, user, {HeldFor(c)}) <= 0
  {
    hide WalletsOk, KeysOwned;
    assert forall k :: 0 <= k < |db.ledger| ==> EntryOwned(db, db.ledger[k]);
    if c in db.changes {
      assert Conserved(db, c) && ChangePlaced(db, c);
      PartOfOwner(db.ledger, user, HeldFor(c), db.changes[c].owner == user);
    } else {
      Untouched(db.ledger, HeldFor(c));
      PartOfOwner(db.ledger, user, HeldFor(c), true);
    }
  }

  lemma WalletBound(db: Db, user: UserId)
    requires LedgerInv(db) && OrdersInv(db) && user in db.wallets
    ensures db.wallets[user] <= Total(db.ledger, ByAdmin(user))
  {
    hide OrdersInv, SagaInv, EntriesOwned, KeysOwned;
    var purposes := (set k | 0 <= k < |db.ledger| :: PurposeOf(db.ledger[k])) + {ByAdmin(user)};
    forall a | a in purposes && a != ByAdmin(user) ensures Part(db.ledger, user, {a}) <= 0 {
      if a.OfOrder? {
        OrderPart(db, user, a.order);
      } else if a.HeldFor? {
        HoldPart(db, user, a.change);
      } else {
        OthersAdjustments(db.ledger, user, a);
      }
    }
    PartOfAll(db.ledger, user, purposes);
    PartOfOwner(db.ledger, user, ByAdmin(user), true);
    PartBound(db.ledger, user, purposes);
  }

  lemma {:induction false} OthersAdjustments(ledger: seq<Entry>, user: UserId, a: Account)
    requires a.ByAdmin? && a.user != user
    ensures Part(ledger, user, {a}) == 0
  {
    if ledger != [] {
      OthersAdjustments(ledger[..|ledger| - 1], user, a);
    }
  }

  lemma GenesisMoney(now: Instant)
    ensures LedgerInv(Genesis(now).db) && OrdersInv(Genesis(now).db) && FinalInv(Genesis(now))
  {
  }

  /**
   No money pump: over any run of credits, purchases, renewals, plan changes and refunds in
   which no settlement pays a refunded order back again, a wallet never exceeds the net amount
   administrators put in.
   */
  lemma NoMoneyPump(now: Instant, steps: seq<Step>, user: UserId)
    requires CleanRun(Genesis(now), steps) && user in Run(Genesis(now), steps).db.wallets
    ensures var db := Run(Genesis(now), steps).db; 0 <= db.wallets[user] <= Total(db.ledger, ByAdmin(user))
  {
    hide Run, CleanRun, OrdersInv, SagaInv, FinalInv;
    GenesisMoney(now);
    RunNets(Genesis(now), steps);
    WalletBound(Run(Genesis(now), steps).db, user);
  }

  /** The promise about one order. */
  ghost predicate CreditedOnce(db: Db, o: OrderId) {
    o in db.orders ==>
      && Total(db.ledger, CreditsTo(o)) <= 1
      && -db.orders[o].amount <= Total(db.ledger, OfOrder(o)) <= 0
      && (db.orders[o].status != OrderRefunded && SourceRefund(o) !in db.businessKeys ==>
            Total(db.ledger, OfOrder(o)) == -db.orders[o].amount)
      && !(db.orders[o].status == OrderRefunded && SourceRefund(o) in db.businessKeys)
  }

  /**
   Each order's price is credited back at most once, by at most what was paid, by a refund or by
   an exchange but not both: in a run if and only if no settlement pays a refunded order again.
   */
  lemma CreditedAtMostOnce(now: Instant, steps: seq<Step>)
    ensures (forall o :: CreditedOnce(Run(Genesis(now), steps).db, o)) <==> CleanRun(Genesis(now), steps)
  {
    hide Run, CleanRun, FinalInv, LedgerInv;
    var g := Genesis(now);
    GenesisMoney(now);
    RunNets(g, steps);
    var db := Run(g, steps).db;
    if CleanRun(g, steps) {
      forall o ensures CreditedOnce(db, o) {
        assert o in db.orders ==> OrderNet(db, o);
      }
    } else {
      UncleanIsSpoiled(g, steps);
      var o :| Spoiled(db, o);
      assert !CreditedOnce(db, o);
    }
  }

  lemma {:induction false} UncleanIsSpoiled(w: World, steps: seq<Step>)
    requires LedgerInv(w.db) && !CleanRun(w, steps)
    ensures exists o :: Spoiled(Run(w, steps).db, o)
    decreases |steps|
  {
    hide LedgerInv, CreditsTwice, Spoiled, Apply;
    StepKeepsLedger(w, steps[0]);
    assert Run(w, steps) == Run(Apply(w, steps[0]), steps[1..]);
    if CreditsTwice(w, steps[0]) {
      CreditingSpoils(w, steps[0]);
      var o :| Spoiled(Apply(w, steps[0]).db, o);
      SpoiledForever(Apply(w, steps[0]), steps[1..], o);
      assert Spoiled(Run(w, steps).db, o);
    } else {
      UncleanIsSpoiled(Apply(w, steps[0]), steps[1..]);
    }
  }

  /** After a refund took the instance out of service, no plan change over it settles, by any worker or reconcile. */
  lemma RefundedNeverSettles(w: World, steps: seq<Step>, tk: Ticket, ids: seq<OrderId>)
    requires OnPlatform(w.db, tk.row.instance) && OutOfService(w.db.instances[tk.row.instance]) && ViewsOk(w)
    requires FreshRun(w, steps)
    ensures !CompletePlanChange(Run(w, steps).db, tk, ids).Committed?
  {
    hide Run, FreshRun, OutOfService, OwnsLease, ViewsOk;
    RefundFinality(w, steps, tk.row.instance);
  }
}
