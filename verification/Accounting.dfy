/**
 Every transaction keeps the books: wallets match the ledger and each change's money is conserved.
 */
module Accounting {
  import opened Wrappers
  import opened Billing
  import opened Schema
  import opened Evolution
  import opened TaskQueue
  import opened Lifecycle
  import opened Commerce
  import opened PlanChange
  import opened Ledger

  ghost predicate LedgerInv(db: Db) {
    BooksInv(db) && SagaInv(db)
  }

  // ---------- frames ----------

  /** Rows stay with their facts, and no order goes back to deploying. */
  ghost predicate Grown(a: Db, b: Db) {
    && OrdersEvolve(a.orders, b.orders) && ChangesEvolve(a.changes, b.changes)
    && a.wallets.Keys <= b.wallets.Keys && PlacementKept(a, b)
    && NotRedeployed(a.orders, b.orders)
  }

  ghost predicate PlacementKept(a: Db, b: Db) {
    NodesEvolve(a.nodes, b.nodes)
    && forall i :: i in a.instances ==> (i in b.instances && b.instances[i].node == a.instances[i].node)
  }

  ghost predicate NotRedeployed(a: map<OrderId, Order>, b: map<OrderId, Order>) {
    forall o :: o in a && o in b ==> (b[o].status == OrderDeploying ==> a[o].status == OrderDeploying)
  }

  lemma EvolvedGrown(a: Db, b: Db)
    requires Evolves(a, b) && NotRedeployed(a.orders, b.orders)
    ensures Grown(a, b)
  {
    assert forall i :: i in a.instances ==> i in b.instances;
  }

  lemma PlacedStays(a: Db, b: Db)
    requires Grown(a, b)
    ensures forall e :: EntryOwned(a, e) ==> EntryOwned(b, e)
    ensures forall key :: KeyOwned(a, key) ==> KeyOwned(b, key)
    ensures forall o :: o in a.orders && OrderPlaced(a, o) ==> OrderPlaced(b, o)
    ensures forall c :: c in a.changes && ChangePlaced(a, c) ==> ChangePlaced(b, c)
  {
    forall e: Entry | EntryOwned(a, e) ensures EntryOwned(b, e) {
      if e.order.Some? {
        var o := e.order.value;
        assert o in b.orders && SameOrderFacts(a.orders[o], b.orders[o]);
      }
      if e.change.Some? {
        var c := e.change.value;
        assert c in b.changes && SameChangeFacts(a.changes[c], b.changes[c]);
      }
    }
    forall c | c in a.changes && ChangePlaced(a, c) ensures ChangePlaced(b, c) {
      assert c in b.changes && SameChangeFacts(a.changes[c], b.changes[c]);
      forall k | 0 <= k < |b.changes[c].items| ensures ItemOk(b, b.changes[c], b.changes[c].items[k]) {
        assert ItemOk(a, a.changes[c], a.changes[c].items[k]);
      }
    }
  }

  lemma BooksGrowth(a: Db, b: Db)
    requires BooksInv(a) && Grown(a, b) && WalletsOk(b.wallets, b.ledger)
    requires forall k :: 0 <= k < |b.ledger| ==>
               (k < |a.ledger| && b.ledger[k] == a.ledger[k]) || EntryOwned(b, b.ledger[k])
    requires forall key :: key in b.businessKeys ==> key in a.businessKeys || KeyOwned(b, key)
    requires forall o :: o in b.orders ==> o in a.orders || OrderPlaced(b, o)
    requires forall c :: c in b.changes ==> c in a.changes || ChangePlaced(b, c)
    ensures BooksInv(b)
  {
    PlacedStays(a, b);
    hide Grown, ChangePlaced, WalletsOk, EntryOwned, KeyOwned, OrderPlaced;
    forall k | 0 <= k < |b.ledger| ensures EntryOwned(b, b.ledger[k]) {
      assert (k < |a.ledger| && b.ledger[k] == a.ledger[k]) || EntryOwned(b, b.ledger[k]);
    }
  }

  /** The change's row and everything booked under it are as before. */
  ghost predicate SameMoney(a: Db, b: Db, c: ChangeId) {
    c in a.changes && c in b.changes && b.changes[c].items == a.changes[c].items
    && b.changes[c].reservation == a.changes[c].reservation
    && Total(b.ledger, HeldFor(c)) == Total(a.ledger, HeldFor(c))
    && Total(b.ledger, OfChange(c)) == Total(a.ledger, OfChange(c))
    && forall key :: ReleaseKey(c, key) ==> (key in b.businessKeys <==> key in a.businessKeys)
  }

  lemma ConservedStays(a: Db, b: Db, c: ChangeId)
    requires SameMoney(a, b, c) && Conserved(a, c)
    requires SagaOk(b.changes[c])
    requires b.changes[c].status == a.changes[c].status || (InFlight(a.changes[c]) && InFlight(b.changes[c]))
    ensures Conserved(b, c)
  {
  }

  /** No money moves and no row gets new facts: status columns only. */
  ghost predicate StatusOnly(a: Db, b: Db) {
    Grown(a, b) && b.wallets == a.wallets && b.ledger == a.ledger && b.businessKeys == a.businessKeys
    && b.orders.Keys == a.orders.Keys && b.changes.Keys == a.changes.Keys
    && forall c :: c in a.changes ==>
         b.changes[c] == a.changes[c]
         || (InFlight(a.changes[c]) && InFlight(b.changes[c]) && SagaOk(b.changes[c]))
                                      || b.changes[c] == a.changes[c].(observed := b.changes[c].observed)
  }

  lemma StatusOnlyKeeps(a: Db, b: Db)
    requires LedgerInv(a) && StatusOnly(a, b)
    ensures LedgerInv(b)
  {
    BooksGrowth(a, b);
    forall c | c in b.changes ensures Conserved(b, c) {
      assert Conserved(a, c);
      assert SagaOk(b.changes[c]);
      hide WalletsOk, BooksInv, Conserved;
      ConservedStays(a, b, c);
    }
  }

  // ---------- one wallet movement ----------

  /** `b` is `a` after the movement `e`, possibly with new rows and keys that are in order. */
  ghost predicate Booked(a: Db, b: Db, e: Entry) {
    && Grown(a, b) && EntryOwned(b, e)
    && e.user in a.wallets && e.after == a.wallets[e.user] + e.amount && e.after >= 0
    && b.ledger == a.ledger + [e] && b.wallets == a.wallets[e.user := e.after]
    && (forall key :: key in b.businessKeys ==> key in a.businessKeys || KeyOwned(b, key))
    && (forall o :: o in b.orders ==> o in a.orders || OrderPlaced(b, o))
    && (forall c :: c in b.changes ==> c in a.changes || ChangePlaced(b, c))
  }

  lemma BookedKeeps(a: Db, b: Db, e: Entry)
    requires BooksInv(a) && Booked(a, b, e)
    ensures BooksInv(b)
    ensures forall acc :: Total(b.ledger, acc) == Total(a.ledger, acc) + Weight(acc, e)
  {
    Appended(a.ledger, e);
    PostKeepsWallets(a.wallets, a.ledger, e);
    BooksGrowth(a, b);
    hide BooksInv, WalletsOk, Grown, ChangePlaced, EntryOwned, KeyOwned, OrderPlaced;
  }

  /** A movement outside the saga leaves every change's money alone. */
  lemma UntaggedKeeps(a: Db, b: Db, e: Entry)
    requires LedgerInv(a) && Booked(a, b, e) && e.change.None? && b.changes == a.changes
             && b.businessKeys == a.businessKeys
    ensures LedgerInv(b)
  {
    BookedKeeps(a, b, e);
    forall c | c in b.changes ensures Conserved(b, c) {
      assert Conserved(a, c) && SagaOk(a.changes[c]);
      hide BooksInv, Booked, Conserved;
      assert Weight(HeldFor(c), e) == 0 && Weight(OfChange(c), e) == 0;
      ConservedStays(a, b, c);
    }
  }

  lemma AdjustKeeps(db: Db, user: UserId, amount: int)
    requires LedgerInv(db)
    ensures LedgerInv(AdjustWallet(db, user, amount))
  {
    if CanAdjust(db, user, amount) {
      UntaggedKeeps(db, AdjustWallet(db, user, amount), Entry(user, amount, db.wallets[user] + amount, None, None));
    }
  }

  lemma OpenWalletKeeps(db: Db, user: UserId)
    requires LedgerInv(db)
    ensures LedgerInv(OpenWallet(db, user))
  {
    if user !in db.wallets {
      Untouched(db.ledger, OfUser(user)) by {
        assert forall k :: 0 <= k < |db.ledger| ==> db.ledger[k].user in db.wallets;
      }
      var after := OpenWallet(db, user);
      BooksGrowth(db, after);
      forall c | c in after.changes ensures Conserved(after, c) {
        assert Conserved(db, c);
      }
    }
  }

  /** A charge for a new order, posted only when money moves. */
  lemma ChargeKeeps(db: Db, after: Db, user: UserId, amount: int, o: OrderId)
    requires LedgerInv(db) && user in db.wallets && 0 <= amount <= db.wallets[user] && o !in db.orders
    requires Grown(db, after) && after.changes == db.changes && after.businessKeys == db.businessKeys
    requires after.wallets == Charge(db, user, amount, o).wallets && after.ledger == Charge(db, user, amount, o).ledger
    requires o in after.orders && after.orders == db.orders[o := after.orders[o]]
    requires after.orders[o].owner == user && OrderPlaced(after, o)
    ensures LedgerInv(after)
  {
    if amount == 0 {
      BooksGrowth(db, after);
      forall c | c in after.changes ensures Conserved(after, c) {
        assert Conserved(db, c);
      }
    } else {
      UntaggedKeeps(db, after, Entry(user, -amount, db.wallets[user] - amount, Some(o), None));
    }
  }

  lemma PurchaseKeeps(db: Db, p: Purchase)
    requires LedgerInv(db)
    ensures LedgerInv(PurchaseWithWallet(db, p))
  {
    if CanPurchase(db, p) {
      var after := PurchaseWithWallet(db, p);
      hide LedgerInv, Grown, Evolves;
      EvolvedGrown(db, after);
      ChargeKeeps(db, after, p.user, p.amount, p.order);
    }
  }

  /** A self-hosted deployment moves no money. */
  lemma DeployKeeps(db: Db, d: OwnDeployment)
    requires LedgerInv(db)
    ensures LedgerInv(DeployOwn(db, d)) && SameMoneyRows(db, DeployOwn(db, d))
  {
    hide LedgerInv, Evolves, OwnInstance;
    ElsewhereKeeps(db, DeployOwn(db, d));
  }

  lemma RenewEffect(db: Db, r: Renewal)
    requires CanRenew(db, r)
    ensures var after := RenewWithWallet(db, r);
            var user, i := db.orders[r.source].owner, db.orders[r.source].instance;
            var paid := Charge(db, user, r.amount, r.order);
            && after.wallets == paid.wallets && after.ledger == paid.ledger
            && after.changes == db.changes && after.businessKeys == db.businessKeys
            && after.orders == db.orders[r.order := Order(user, i, r.amount, OrderActive,
                                                          Later(db.now, db.instances[i].expiresAt), r.end)]
            && after.instances == db.instances[i := RenewedInstance(db.instances[i], r.end)]
  {
    hide EvolvesQuietly, BlocksRenewal, RenewedInstance, CoercedRuntime, LockFree;
  }

  lemma RenewRefused(db: Db, r: Renewal)
    requires !CanRenew(db, r)
    ensures RenewWithWallet(db, r) == db
  {
  }

  lemma RenewKeeps(db: Db, r: Renewal)
    requires LedgerInv(db)
    ensures LedgerInv(RenewWithWallet(db, r))
  {
    if CanRenew(db, r) {
      var after := RenewWithWallet(db, r);
      RenewEffect(db, r);
      hide LedgerInv, Grown, Evolves, Charge, RenewWithWallet, BlocksRenewal;
      EvolvedGrown(db, after);
      ChargeKeeps(db, after, db.orders[r.source].owner, r.amount, r.order);
    }
  }

  // ---------- the saga's movements ----------

  lemma OpenEffect(db: Db, p: Opening)
    requires CanOpenChange(db, p)
    ensures var after := OpenChange(db, p);
            var held := Hold(db, p.owner, p.quote.charge, p.change);
            && after.wallets == held.wallets && after.ledger == held.ledger && after.businessKeys == held.businessKeys
            && after.orders == db.orders && after.instances.Keys == db.instances.Keys
            && after.changes == db.changes[p.change := NewChange(p, db.instances[p.instance].resources)]
    ensures p.change !in db.changes && p.quote.charge >= 0
    ensures p.quote.charge > 0 ==> p.owner in db.wallets && p.quote.charge <= db.wallets[p.owner]
  {
    hide EvolvesQuietly, ItemConfirmed, BlocksChange, Balanced;
  }

  lemma OpenedIsPlaced(db: Db, after: Db, p: Opening)
    requires BooksInv(db) && CanOpenChange(db, p) && Grown(db, after) && after.orders == db.orders
    requires after.changes == db.changes[p.change := NewChange(p, db.instances[p.instance].resources)]
    ensures ChangePlaced(after, p.change) && p.owner in db.wallets && p.quote.charge >= 0
  {
    hide WalletsOk, BlocksChange;
    assert ItemConfirmed(db, p, p.quote.items[0]);
    assert OrderPlaced(db, p.quote.items[0].order);
    forall k | 0 <= k < |p.quote.items| ensures ItemOk(after, after.changes[p.change], p.quote.items[k]) {
      assert ItemConfirmed(db, p, p.quote.items[k]);
      assert OrderPlaced(db, p.quote.items[k].order);
    }
  }

  /** Only the change `c` is new or different. */
  ghost predicate OthersKept(a: Db, b: Db, c: ChangeId) {
    b.changes.Keys == a.changes.Keys + {c}
    && (forall d :: d in a.changes && d != c ==> b.changes[d] == a.changes[d])
    && (forall d, key :: d != c && ReleaseKey(d, key) ==> (key in b.businessKeys <==> key in a.businessKeys))
  }

  lemma OthersConserved(a: Db, b: Db, c: ChangeId)
    requires SagaInv(a) && OthersKept(a, b, c)
    requires forall d :: d != c ==> Total(b.ledger, HeldFor(d)) == Total(a.ledger, HeldFor(d))
                                    && Total(b.ledger, OfChange(d)) == Total(a.ledger, OfChange(d))
    requires c in b.changes && Conserved(b, c)
    ensures SagaInv(b)
  {
    forall d | d in b.changes && d != c ensures Conserved(b, d) {
      assert Conserved(a, d) && SagaOk(a.changes[d]);
      hide Conserved, SagaOk;
      ConservedStays(a, b, d);
    }
  }

  /** The change has never been heard of. */
  lemma NothingBooked(db: Db, c: ChangeId)
    requires BooksInv(db) && c !in db.changes
    ensures Total(db.ledger, HeldFor(c)) == 0 && Total(db.ledger, OfChange(c)) == 0
    ensures forall key :: ReleaseKey(c, key) ==> key !in db.businessKeys
  {
    assert forall k :: 0 <= k < |db.ledger| ==> EntryOwned(db, db.ledger[k]);
    Untouched(db.ledger, HeldFor(c));
    Untouched(db.ledger, OfChange(c));
    assert forall key :: ReleaseKey(c, key) ==> !KeyOwned(db, key);
  }

  lemma OpenBooks(db: Db, p: Opening)
    requires BooksInv(db) && CanOpenChange(db, p)
    ensures var after := OpenChange(db, p);
            && BooksInv(after)
            && (forall d :: d != p.change ==> Total(after.ledger, HeldFor(d)) == Total(db.ledger, HeldFor(d))
                                              && Total(after.ledger, OfChange(d)) == Total(db.ledger, OfChange(d)))
            && Total(after.ledger, HeldFor(p.change)) == Total(db.ledger, HeldFor(p.change)) - p.quote.charge
            && Total(after.ledger, OfChange(p.change)) == Total(db.ledger, OfChange(p.change)) - p.quote.charge
  {
    hide BooksInv, CanOpenChange, OpenChange, WalletsOk, ChangePlaced, Grown, Evolves;
    var after := OpenChange(db, p);
    OpenEffect(db, p);
    EvolvedGrown(db, after);
    OpenedIsPlaced(db, after, p);
    if p.quote.charge > 0 {
      BookedKeeps(db, after, Entry(p.owner, -p.quote.charge, db.wallets[p.owner] - p.quote.charge, None,
                                   Some(p.change)));
    } else {
      WalletsOf(db);
      BooksGrowth(db, after);
    }
  }

  lemma WalletsOf(db: Db)
    requires BooksInv(db)
    ensures WalletsOk(db.wallets, db.ledger)
  {
  }

  lemma OpenKeeps(db: Db, p: Opening)
    requires LedgerInv(db)
    ensures LedgerInv(OpenChange(db, p))
  {
    hide Grown, BooksInv, OpenChange, CanOpenChange, Evolves, SagaInv;
    if CanOpenChange(db, p) {
      OpenEffect(db, p);
      OpenBooks(db, p);
      NothingBooked(db, p.change);
      OthersConserved(db, OpenChange(db, p), p.change);
    } else {
      OpenRefused(db, p);
    }
  }

  lemma OpenRefused(db: Db, p: Opening)
    requires !CanOpenChange(db, p)
    ensures OpenChange(db, p) == db
  {
  }

  // ---------- giving the reservation back ----------

  lemma ReleaseBooks(db: Db, c: ChangeId, key: BusinessKey)
    requires BooksInv(db) && c in db.changes && CanPay(db, c) && (key == FailRelease(c) || key == CancelRelease(c))
    requires db.changes[c].reservation >= 0
    ensures var after := Release(db, c, key);
            && BooksInv(after)
            && (forall d :: d != c ==> Total(after.ledger, HeldFor(d)) == Total(db.ledger, HeldFor(d))
                                       && Total(after.ledger, OfChange(d)) == Total(db.ledger, OfChange(d)))
            && Total(after.ledger, HeldFor(c)) == Total(db.ledger, HeldFor(c)) + db.changes[c].reservation
            && Total(after.ledger, OfChange(c)) == Total(db.ledger, OfChange(c)) + db.changes[c].reservation
  {
    hide BooksInv, Grown, Evolves, ChangePlaced, RunningBalances;
    var after := Release(db, c, key);
    var change := db.changes[c];
    EvolvedGrown(db, after);
    WalletsOf(db);
    if change.reservation > 0 {
      BookedKeeps(db, after, Entry(change.owner, change.reservation, db.wallets[change.owner] + change.reservation,
                                   None, Some(c)));
    } else {
      BooksGrowth(db, after);
    }
  }

  lemma OpenChangeFacts(db: Db, c: ChangeId)
    requires LedgerInv(db) && c in db.changes
    ensures CanPay(db, c) && db.changes[c].reservation >= 0 && db.changes[c].owner in db.wallets && Conserved(db, c)
            && ChangePlaced(db, c)
  {
  }

  lemma ReleaseKeeps(db: Db, c: ChangeId, key: BusinessKey)
    requires LedgerInv(db) && c in db.changes && InFlight(db.changes[c])
             && (key == FailRelease(c) || key == CancelRelease(c))
    ensures CanPay(db, c) && key !in db.businessKeys && LedgerInv(Release(db, c, key))
  {
    hide BooksInv, Grown, Evolves, SagaInv, ChangePlaced;
    OpenChangeFacts(db, c);
    ReleaseBooks(db, c, key);
    assert ReleaseKey(c, key);
    OthersConserved(db, Release(db, c, key), c);
  }

  lemma FailKeeps(db: Db, c: ChangeId)
    requires LedgerInv(db)
    ensures LedgerInv(FailChange(db, c))
  {
    hide LedgerInv, Release;
    if c in db.changes && db.changes[c].status == Processing {
      ReleaseKeeps(db, c, FailRelease(c));
    }
  }

  /** Whoever cancels a settlement, the change is still open. */
  lemma CancelKeeps(db: Db, c: ChangeId)
    requires LedgerInv(db) && c in db.changes && db.changes[c].saga != Settled
    ensures LedgerInv(CancelSettlement(db, c))
  {
    OpenChangeFacts(db, c);
    if db.changes[c].saga != SagaCancelled {
      assert InFlight(db.changes[c]);
      ReleaseKeeps(db, c, CancelRelease(c));
    }
  }

  // ---------- status columns ----------

  lemma BlockKeeps(db: Db, c: ChangeId)
    requires LedgerInv(db)
    ensures LedgerInv(MarkBlocked(db, c))
  {
    hide BooksInv, Evolves;
    var after := MarkBlocked(db, c);
    EvolvedGrown(db, after);
    StatusOnlyKeeps(db, after);
  }

  lemma ResumeKeeps(db: Db, c: ChangeId)
    requires LedgerInv(db)
    ensures LedgerInv(ResumeBlocked(db, c))
  {
    hide BooksInv, Evolves;
    var after := ResumeBlocked(db, c);
    EvolvedGrown(db, after);
    if Resumable(db, c) {
      assert Conserved(db, c);
    }
    StatusOnlyKeeps(db, after);
  }

  lemma ObserveKeeps(db: Db, c: ChangeId, seen: Resources)
    requires LedgerInv(db)
    ensures LedgerInv(RecordObservation(db, c, seen))
  {
    hide BooksInv, Evolves;
    var after := RecordObservation(db, c, seen);
    EvolvedGrown(db, after);
    StatusOnlyKeeps(db, after);
  }

  lemma MoveOrdersKeeps(db: Db, i: InstanceId, from: set<OrderStatus>, to: OrderStatus)
    requires LedgerInv(db) && to != OrderDeploying && OrderRefunded !in from
    ensures LedgerInv(MoveOrders(db, i, from, to))
  {
    hide LedgerInv, Evolves;
    var after := MoveOrders(db, i, from, to);
    EvolvedGrown(db, after);
    StatusOnlyKeeps(db, after);
  }

  lemma ActivateKeeps(db: Db, i: InstanceId)
    requires LedgerInv(db)
    ensures LedgerInv(ActivateOrders(db, i))
  {
    hide LedgerInv, MoveOrders;
    MoveOrdersKeeps(db, i, {OrderDeploying}, OrderActive);
  }

  /** Instance, task and node rows are not part of the books. */
  lemma ElsewhereKeeps(a: Db, b: Db)
    requires LedgerInv(a) && Evolves(a, b)
    requires b.wallets == a.wallets && b.ledger == a.ledger && b.businessKeys == a.businessKeys
    requires b.orders == a.orders && b.changes == a.changes
    ensures LedgerInv(b)
  {
    hide LedgerInv, Evolves;
    EvolvedGrown(a, b);
    StatusOnlyKeeps(a, b);
  }

  // ---------- cancellation ----------

  lemma QueueCompensationKeeps(db: Db, c: ChangeId, t: TaskId)
    requires LedgerInv(db) && c in db.changes && InFlight(db.changes[c]) && db.changes[c].instance in db.instances
    requires CanInsertTask(db, t, CompensateKey(c))
    ensures LedgerInv(QueueCompensation(db, c, t))
  {
    hide LedgerInv, Evolves, CancelPendingResizes;
    var after := QueueCompensation(db, c, t);
    CancelPendingKeepsBooks(BumpIfServing(db, db.changes[c].instance), db.changes[c].instance);
    EvolvedGrown(db, after);
    StatusOnlyKeeps(db, after);
  }

  lemma CancelPendingKeepsBooks(db: Db, i: InstanceId)
    ensures var after := CancelPendingResizes(db, i);
            after.wallets == db.wallets && after.ledger == db.ledger && after.businessKeys == db.businessKeys
            && after.orders == db.orders && after.changes == db.changes && after.instances == db.instances
  {
  }

  lemma RequestCancelKeeps(db: Db, c: ChangeId, t: TaskId)
    requires LedgerInv(db)
    ensures LedgerInv(RequestCancel(db, c, t))
  {
    hide LedgerInv, Evolves, QueueCompensation, CancelSettlement, ObservedAtSource;
    if CanRequestCancel(db, c) {
      if ObservedAtSource(db, c) {
        var bumped := BumpGeneration(db, db.changes[c].instance);
        ElsewhereKeeps(db, bumped);
        CancelKeeps(bumped, c);
      } else if CanInsertTask(db, t, CompensateKey(c)) {
        QueueCompensationKeeps(db, c, t);
      }
    }
  }

  lemma CompensationKeeps(db: Db, tk: Ticket)
    requires LedgerInv(db)
    ensures LedgerInv(CompleteCompensation(db, tk))
  {
    hide LedgerInv, Evolves, CancelSettlement;
    if tk.row.change.Some? && CanCompensate(db, tk, tk.row.change.value) {
      var row := db.instances[tk.row.instance];
      var applied := if Serving(row.status)
                     then PutInstance(db, tk.row.instance, row.(resources := tk.row.resources))
                     else db;
      ApplyingSourceEvolves(db, tk);
      ElsewhereKeeps(db, applied);
      CancelKeeps(applied, tk.row.change.value);
    }
  }

  lemma ApplyingSourceEvolves(db: Db, tk: Ticket)
    requires tk.row.instance in db.instances
    ensures Evolves(db, PutInstance(db, tk.row.instance, db.instances[tk.row.instance].(resources := tk.row.resources)))
    ensures Evolves(db, db)
  {
  }
}
