/**
 Each order's account over every transaction: paid once, credited at most once and never above its price.
 */
module OrderNets {
  import opened Wrappers
  import opened Billing
  import opened Schema
  import opened Evolution
  import opened TaskQueue
  import opened Commerce
  import opened PlanChange
  import opened Ledger
  import opened Accounting
  import opened Settlement

  ghost predicate SameCreditKeys(a: Db, b: Db) {
    forall o :: SourceRefund(o) in a.businessKeys <==> SourceRefund(o) in b.businessKeys
  }

  /** Entries without an order, and status moves out of the active states, change no account. */
  ghost predicate SameOrders(a: Db, b: Db) {
    a.orders == b.orders
    || (a.orders.Keys == b.orders.Keys
        && forall o :: o in a.orders ==>
             b.orders[o].amount == a.orders[o].amount
             && (b.orders[o].status == a.orders[o].status
                 || (a.orders[o].status in {OrderActive, OrderDeploying} && b.orders[o].status != OrderRefunded)))
  }

  lemma QuietNets(a: Db, b: Db)
    requires OrdersInv(a) && SameOrders(a, b) && SameCreditKeys(a, b) && b.ledger == a.ledger
    ensures OrdersInv(b)
  {
    forall o | o in b.orders ensures OrderNet(b, o) {
      NetStays(a, b, o);
    }
  }

  lemma UnnamedNets(a: Db, b: Db, e: Entry)
    requires OrdersInv(a) && SameOrders(a, b) && SameCreditKeys(a, b) && b.ledger == a.ledger + [e] && e.order.None?
    ensures OrdersInv(b)
  {
    Appended(a.ledger, e);
    forall o | o in b.orders ensures OrderNet(b, o) {
      NetStays(a, b, o);
    }
  }

  lemma NeverNamed(db: Db, o: OrderId)
    requires BooksInv(db) && o !in db.orders
    ensures Total(db.ledger, OfOrder(o)) == 0 && Total(db.ledger, CreditsTo(o)) == 0
            && SourceRefund(o) !in db.businessKeys
  {
    assert forall k :: 0 <= k < |db.ledger| ==> EntryOwned(db, db.ledger[k]);
    Untouched(db.ledger, OfOrder(o));
    Untouched(db.ledger, CreditsTo(o));
    assert !KeyOwned(db, SourceRefund(o));
  }

  /** A new order that was paid in full, or was free. */
  lemma PlacedNets(a: Db, b: Db, o: OrderId, e: Entry)
    requires BooksInv(a) && OrdersInv(a) && o !in a.orders && o in b.orders && b.orders == a.orders[o := b.orders[o]]
             && SameCreditKeys(a, b)
    requires b.orders[o].amount >= 0 && b.orders[o].status != OrderRefunded
    requires e.order == Some(o) && e.amount == -b.orders[o].amount
    requires b.ledger == a.ledger + [e] || (b.ledger == a.ledger && b.orders[o].amount == 0)
    ensures OrdersInv(b)
  {
    hide BooksInv;
    Appended(a.ledger, e);
    NeverNamed(a, o);
    assert OrderNet(b, o);
    forall p | p in b.orders && p != o ensures OrderNet(b, p) {
      NetStays(a, b, p);
    }
  }

  // ---------- shop ----------

  lemma ShopNets(db: Db, user: UserId, amount: int)
    requires OrdersInv(db)
    ensures OrdersInv(AdjustWallet(db, user, amount)) && OrdersInv(OpenWallet(db, user))
  {
    hide OrdersInv;
    QuietNets(db, OpenWallet(db, user));
    if CanAdjust(db, user, amount) {
      UnnamedNets(db, AdjustWallet(db, user, amount), Entry(user, amount, db.wallets[user] + amount, None, None));
    }
  }

  lemma PurchaseNets(db: Db, p: Purchase)
    requires LedgerInv(db) && OrdersInv(db)
    ensures OrdersInv(PurchaseWithWallet(db, p))
  {
    hide BooksInv, OrdersInv, SagaInv, Evolves;
    if CanPurchase(db, p) {
      PlacedNets(db, PurchaseWithWallet(db, p), p.order,
                 Entry(p.user, -p.amount, db.wallets[p.user] - p.amount, Some(p.order), None));
    }
  }

  lemma RenewNets(db: Db, r: Renewal)
    requires LedgerInv(db) && OrdersInv(db)
    ensures OrdersInv(RenewWithWallet(db, r))
  {
    hide BooksInv, OrdersInv, SagaInv, Evolves, RenewWithWallet, BlocksRenewal;
    if CanRenew(db, r) {
      RenewEffect(db, r);
      var user := db.orders[r.source].owner;
      PlacedNets(db, RenewWithWallet(db, r), r.order,
                 Entry(user, -r.amount, db.wallets[user] - r.amount, Some(r.order), None));
    } else {
      RenewRefused(db, r);
    }
  }

  lemma MoveOrdersNets(db: Db, i: InstanceId, from: set<OrderStatus>, to: OrderStatus)
    requires OrdersInv(db) && from <= {OrderActive, OrderDeploying} && to != OrderRefunded
    ensures OrdersInv(MoveOrders(db, i, from, to))
  {
    hide OrdersInv;
    var after := MoveOrders(db, i, from, to);
    assert SameOrders(db, after);
    QuietNets(db, after);
  }

  // ---------- saga ----------

  lemma OpenNets(db: Db, p: Opening)
    requires LedgerInv(db) && OrdersInv(db)
    ensures OrdersInv(OpenChange(db, p))
  {
    hide BooksInv, OrdersInv, SagaInv, Evolves, OpenChange, CanOpenChange;
    if CanOpenChange(db, p) {
      OpenEffect(db, p);
      var after := OpenChange(db, p);
      if p.quote.charge > 0 {
        UnnamedNets(db, after, Entry(p.owner, -p.quote.charge, db.wallets[p.owner] - p.quote.charge, None,
                                     Some(p.change)));
      } else {
        QuietNets(db, after);
      }
    } else {
      OpenRefused(db, p);
    }
  }

  lemma ReleaseNets(db: Db, c: ChangeId, key: BusinessKey)
    requires OrdersInv(db) && c in db.changes && CanPay(db, c) && !key.SourceRefund?
    ensures OrdersInv(Release(db, c, key))
  {
    hide OrdersInv, Evolves;
    var change := db.changes[c];
    var after := Release(db, c, key);
    if change.reservation > 0 {
      UnnamedNets(db, after, Entry(change.owner, change.reservation, db.wallets[change.owner] + change.reservation,
                                   None, Some(c)));
    } else {
      QuietNets(db, after);
    }
  }

  /** Same orders, same ledger, same keys. */
  lemma ElsewhereNets(a: Db, b: Db)
    requires OrdersInv(a) && b.orders == a.orders && b.ledger == a.ledger && b.businessKeys == a.businessKeys
    ensures OrdersInv(b)
  {
    QuietNets(a, b);
  }

  lemma CancelNets(db: Db, c: ChangeId)
    requires OrdersInv(db)
    ensures OrdersInv(CancelSettlement(db, c)) && OrdersInv(FailChange(db, c))
  {
    hide OrdersInv, Release;
    if c in db.changes && CanPay(db, c) {
      ReleaseNets(db, c, CancelRelease(c));
      ReleaseNets(db, c, FailRelease(c));
    }
  }

  lemma RequestCancelNets(db: Db, c: ChangeId, t: TaskId)
    requires OrdersInv(db)
    ensures OrdersInv(RequestCancel(db, c, t))
  {
    hide OrdersInv, Evolves, CancelSettlement, ObservedAtSource, CancelPendingResizes;
    if CanRequestCancel(db, c) {
      if ObservedAtSource(db, c) {
        var bumped := BumpGeneration(db, db.changes[c].instance);
        ElsewhereNets(db, bumped);
        CancelNets(bumped, c);
      } else if CanInsertTask(db, t, CompensateKey(c)) {
        CancelPendingKeepsBooks(BumpIfServing(db, db.changes[c].instance), db.changes[c].instance);
        ElsewhereNets(db, QueueCompensation(db, c, t));
      }
    }
  }

  lemma CompensationNets(db: Db, tk: Ticket)
    requires OrdersInv(db)
    ensures OrdersInv(CompleteCompensation(db, tk))
  {
    hide OrdersInv, Evolves, CancelSettlement;
    if tk.row.change.Some? && CanCompensate(db, tk, tk.row.change.value) {
      var row := db.instances[tk.row.instance];
      var applied := if Serving(row.status)
                     then PutInstance(db, tk.row.instance, row.(resources := tk.row.resources))
                     else db;
      ElsewhereNets(db, applied);
      CancelNets(applied, tk.row.change.value);
    }
  }

  // ---------- settlement ----------

  lemma ChargeNets(db: Db, c: ChangeId, item: QuoteItem, id: OrderId)
    requires BooksInv(db) && OrdersInv(db) && c in db.changes && db.changes[c].owner in db.wallets
             && ItemOk(db, db.changes[c], item) && id !in db.orders
    ensures var change := db.changes[c];
            OrdersInv(WithBooks(db, change.owner, ChargedItem(BooksOf(db, change.owner), change, c, item, id)))
  {
    hide BooksInv, OrdersInv;
    var change := db.changes[c];
    PlacedNets(db, WithBooks(db, change.owner, ChargedItem(BooksOf(db, change.owner), change, c, item, id)), id,
               Entry(change.owner, -item.charge, db.wallets[change.owner] - item.charge, Some(id), Some(c)));
  }

  lemma RetireNets(db: Db, c: ChangeId, item: QuoteItem)
    requires OrdersInv(db) && c in db.changes && db.changes[c].owner in db.wallets && ItemOk(db, db.changes[c], item)
    requires item.refund > 0 ==>
               db.orders[item.order].status != OrderRefunded && SourceRefund(item.order) !in db.businessKeys
    ensures var change := db.changes[c];
            OrdersInv(WithBooks(db, change.owner,
                                RetiredItem(BooksOf(db, change.owner), change, c, item,
                                            RetiredOrder(db.orders[item.order]))))
  {
    var change, o := db.changes[c], item.order;
    var after := WithBooks(db, change.owner,
                           RetiredItem(BooksOf(db, change.owner), change, c, item, RetiredOrder(db.orders[o])));
    if item.refund > 0 {
      Appended(db.ledger, Entry(change.owner, item.refund, db.wallets[change.owner] + item.refund, Some(o), Some(c)));
    }
    assert OrderNet(db, o) && OrderNet(after, o);
    forall p | p in after.orders && p != o ensures OrderNet(after, p) {
      NetStays(db, after, p);
    }
  }

  ghost predicate NoneRefunded(a: Db, b: Db) {
    forall o :: o in a.orders ==>
      o in b.orders && (a.orders[o].status != OrderRefunded ==> b.orders[o].status != OrderRefunded)
  }

  /** The item credits nothing, or its source was not refunded. */
  predicate SourceUnrefunded(db: Db, item: QuoteItem) {
    item.order in db.orders && (item.refund > 0 ==> db.orders[item.order].status != OrderRefunded)
  }

  lemma ItemNets(db: Db, c: ChangeId, item: QuoteItem, id: OrderId)
    requires BooksInv(db) && OrdersInv(db) && c in db.changes && db.changes[c].owner in db.wallets
             && ItemOk(db, db.changes[c], item)
    requires SourceUnrefunded(db, item)
    ensures var change := db.changes[c];
            var r := SettleItem(BooksOf(db, change.owner), change, c, item, id);
            r.Some? ==>
              var after := WithBooks(db, change.owner, r.value);
              OrdersInv(after) && NoneRefunded(db, after)
  {
    hide BooksInv, OrdersInv, Shifts;
    var change := db.changes[c];
    var s := BooksOf(db, change.owner);
    var r := SettleItem(s, change, c, item, id);
    if r.Some? {
      var mid := WithBooks(db, change.owner, ChargedItem(s, change, c, item, id));
      ChargeNets(db, c, item, id);
      ChargeItemKeeps(db, c, item, id);
      assert BooksOf(mid, change.owner) == ChargedItem(s, change, c, item, id);
      RetireNets(mid, c, item);
      assert WithBooks(mid, change.owner, r.value) == WithBooks(db, change.owner, r.value);
    }
  }

  lemma {:induction false} ItemsNets(db: Db, c: ChangeId, items: seq<QuoteItem>, ids: seq<OrderId>)
    requires BooksInv(db) && OrdersInv(db) && c in db.changes && db.changes[c].owner in db.wallets && |items| == |ids|
    requires forall k :: 0 <= k < |items| ==> ItemOk(db, db.changes[c], items[k])
    requires forall k :: 0 <= k < |items| ==> SourceUnrefunded(db, items[k])
    ensures var change := db.changes[c];
            var r := SettleItems(BooksOf(db, change.owner), change, c, items, ids);
            r.Some? ==>
              var after := WithBooks(db, change.owner, r.value);
              OrdersInv(after) && NoneRefunded(db, after)
  {
    hide BooksInv, OrdersInv, Shifts, SettleItem, ItemOk, SourceUnrefunded, NoneRefunded;
    var change := db.changes[c];
    if items == [] {
      assert WithBooks(db, change.owner, BooksOf(db, change.owner)) == db;
      NoneRefundedAdds(db, db, db);
    } else {
      var n := |items| - 1;
      ItemsNets(db, c, items[..n], ids[..n]);
      if SettleItems(BooksOf(db, change.owner), change, c, items[..n], ids[..n]).Some? {
        LastItemNets(db, c, items, ids);
      }
    }
  }

  lemma LastItemNets(db: Db, c: ChangeId, items: seq<QuoteItem>, ids: seq<OrderId>)
    requires BooksInv(db) && c in db.changes && db.changes[c].owner in db.wallets && 0 < |items| == |ids|
    requires forall k :: 0 <= k < |items| ==> ItemOk(db, db.changes[c], items[k])
    requires SourceUnrefunded(db, items[|items| - 1])
    requires var change := db.changes[c];
             var n := |items| - 1;
             var before := SettleItems(BooksOf(db, change.owner), change, c, items[..n], ids[..n]);
             before.Some? && OrdersInv(WithBooks(db, change.owner, before.value))
             && NoneRefunded(db, WithBooks(db, change.owner, before.value))
    ensures var change := db.changes[c];
            var r := SettleItems(BooksOf(db, change.owner), change, c, items, ids);
            r.Some? ==>
              var after := WithBooks(db, change.owner, r.value);
              OrdersInv(after) && NoneRefunded(db, after)
  {
    hide BooksInv, OrdersInv, Shifts, SettleItem, ItemOk, NoneRefunded, Grown, SourceUnrefunded, OrdersEvolve;
    var change := db.changes[c];
    var n := |items| - 1;
    ItemsKeep(db, c, items[..n], ids[..n]);
    var before := SettleItems(BooksOf(db, change.owner), change, c, items[..n], ids[..n]).value;
    var mid := WithBooks(db, change.owner, before);
    assert BooksOf(mid, change.owner) == before;
    ShiftsGrown(db, mid, c, SumRefunds(items[..n]) - SumCharges(items[..n]));
    ItemStays(db, mid, change, items[n]);
    StillUnrefunded(db, mid, items[n]);
    ItemNets(mid, c, items[n], ids[n]);
    var r := SettleItem(before, change, c, items[n], ids[n]);
    if r.Some? {
      assert WithBooks(mid, change.owner, r.value) == WithBooks(db, change.owner, r.value);
      NoneRefundedAdds(db, mid, WithBooks(db, change.owner, r.value));
    }
  }

  lemma StillUnrefunded(a: Db, b: Db, item: QuoteItem)
    requires SourceUnrefunded(a, item) && NoneRefunded(a, b)
    ensures SourceUnrefunded(b, item)
  {
  }

  lemma NoneRefundedAdds(a: Db, b: Db, c: Db)
    ensures NoneRefunded(a, a)
    ensures NoneRefunded(a, b) && NoneRefunded(b, c) ==> NoneRefunded(a, c)
  {
  }

  /** Some item pays back an order that a refund already paid back. */
  predicate PaysTwice(db: Db, c: ChangeId) {
    c in db.changes
    && exists k :: 0 <= k < |db.changes[c].items| && !SourceUnrefunded(db, db.changes[c].items[k])
  }

  lemma UnrefundedNets(db: Db, tk: Ticket, ids: seq<OrderId>)
    requires LedgerInv(db) && OrdersInv(db) && CompletePlanChange(db, tk, ids).Committed?
    requires !PaysTwice(db, tk.row.change.value)
    ensures OrdersInv(CompletePlanChange(db, tk, ids).db)
  {
    hide BooksInv, OrdersInv, SagaInv, ItemOk, SettleItems, CanSettle, Evolves, ChangePlaced, SourceUnrefunded, Grown;
    var c := tk.row.change.value;
    var change := db.changes[c];
    OpenChangeFacts(db, c);
    OpeningKeeps(db, c);
    OpeningNets(db, c);
    var mid := WithBooks(db, change.owner, OpeningBooks(db, change, c));
    assert BooksOf(mid, change.owner) == OpeningBooks(db, change, c);
    ItemsOf(mid, c);
    SameSources(db, mid, change.items);
    ItemsNets(mid, c, change.items, ids);
    var s := SettleItems(OpeningBooks(db, change, c), change, c, change.items, ids).value;
    ElsewhereNets(WithBooks(mid, change.owner, s), CompletePlanChange(db, tk, ids).db);
  }

  /** An order that was refunded and whose exchange credit is used up. */
  ghost predicate Spoiled(db: Db, o: OrderId) {
    o in db.orders && db.orders[o].status == OrderRefunded && SourceRefund(o) in db.businessKeys
  }

  lemma SpoiledBreaks(db: Db, o: OrderId)
    requires Spoiled(db, o)
    ensures !OrdersInv(db)
  {
    assert !OrderNet(db, o);
  }

  lemma PaidTwiceSpoils(db: Db, tk: Ticket, ids: seq<OrderId>)
    requires LedgerInv(db) && CompletePlanChange(db, tk, ids).Committed? && PaysTwice(db, tk.row.change.value)
    ensures exists o :: Spoiled(CompletePlanChange(db, tk, ids).db, o)
  {
    hide BooksInv, SagaInv, SettleItems, CanSettle, Evolves, ChangePlaced, LifeKept, SidelinedKept;
    var c := tk.row.change.value;
    var change := db.changes[c];
    ItemsOf(db, c);
    var k :| 0 <= k < |change.items| && !SourceUnrefunded(db, change.items[k]);
    var o := change.items[k].order;
    assert ItemOk(db, change, change.items[k]);
    OpenChangeFacts(db, c);
    LoopEffect(OpeningBooks(db, change, c), change, c, change.items, ids);
    assert Credits(change.items, o);
    RefundStays(db, CompletePlanChange(db, tk, ids).db, o);
    assert Spoiled(CompletePlanChange(db, tk, ids).db, o);
  }

  lemma RefundStays(a: Db, b: Db, o: OrderId)
    requires Evolves(a, b) && o in a.orders && a.orders[o].status == OrderRefunded
    ensures o in b.orders && b.orders[o].status == OrderRefunded
  {
  }

  /**
   A settlement keeps every order within its price if and only if no item of it pays back an
   order that was refunded, which the settlement could look up.
   */
  lemma SettlementNets(db: Db, tk: Ticket, ids: seq<OrderId>)
    requires LedgerInv(db) && OrdersInv(db) && CompletePlanChange(db, tk, ids).Committed?
    ensures OrdersInv(CompletePlanChange(db, tk, ids).db) <==> !PaysTwice(db, tk.row.change.value)
  {
    hide LedgerInv, OrdersInv, PaysTwice, SettleItems, CanSettle, OpeningBooks, BooksOnly, CommitBooks, Spoiled;
    if PaysTwice(db, tk.row.change.value) {
      PaidTwiceSpoils(db, tk, ids);
      var o :| Spoiled(CompletePlanChange(db, tk, ids).db, o);
      SpoiledBreaks(CompletePlanChange(db, tk, ids).db, o);
    } else {
      UnrefundedNets(db, tk, ids);
    }
  }

  lemma SameSources(a: Db, b: Db, items: seq<QuoteItem>)
    requires a.orders == b.orders && forall k :: 0 <= k < |items| ==> SourceUnrefunded(a, items[k])
    ensures forall k :: 0 <= k < |items| ==> SourceUnrefunded(b, items[k])
  {
  }

  lemma OpeningNets(db: Db, c: ChangeId)
    requires OrdersInv(db) && c in db.changes && db.changes[c].owner in db.wallets
    ensures var change := db.changes[c]; OrdersInv(WithBooks(db, change.owner, OpeningBooks(db, change, c)))
  {
    hide OrdersInv;
    var change := db.changes[c];
    var after := WithBooks(db, change.owner, OpeningBooks(db, change, c));
    if change.reservation > 0 {
      UnnamedNets(db, after, Entry(change.owner, change.reservation, db.wallets[change.owner] + change.reservation,
                                   None, Some(c)));
    } else {
      QuietNets(db, after);
    }
  }
}
