/**
 Settling a plan change: the item loop keeps the books, is always covered by the reservation,
 and turns the held money into exactly the refunds minus the charges.
 */
module Settlement {
  import opened Wrappers
  import opened Billing
  import opened Schema
  import opened Evolution
  import opened TaskQueue
  import opened Commerce
  import opened PlanChange
  import opened Ledger
  import opened Accounting

  /** The tables as the loop sees them before the transaction commits. */
  function WithBooks(db: Db, user: UserId, s: Ledgered): Db {
    db.(orders := s.books.orders, ledger := s.books.ledger, wallets := db.wallets[user := s.books.balance],
        businessKeys := s.keys)
  }

  function BooksOf(db: Db, user: UserId): Ledgered
    requires user in db.wallets
  {
    Ledgered(Books(db.orders, db.ledger, db.wallets[user]), db.businessKeys)
  }

  /** Only the change's own account moves, by `delta`; nothing is released. */
  ghost predicate Shifts(a: Db, b: Db, c: ChangeId, delta: int) {
    && Grown(a, b)
    && (forall d :: Total(b.ledger, HeldFor(d)) == Total(a.ledger, HeldFor(d)))
    && (forall d :: Total(b.ledger, OfChange(d)) == Total(a.ledger, OfChange(d)) + if d == c then delta else 0)
    && (forall d, key :: ReleaseKey(d, key) ==> (key in b.businessKeys <==> key in a.businessKeys))
  }

  lemma NoShift(a: Db, c: ChangeId)
    ensures Shifts(a, a, c, 0)
  {
  }

  lemma ShiftsAdd(a: Db, b: Db, d: Db, c: ChangeId, x: int, y: int)
    requires Shifts(a, b, c, x) && Shifts(b, d, c, y)
    ensures Shifts(a, d, c, x + y)
  {
  }

  lemma PlacedOf(db: Db, c: ChangeId)
    requires BooksInv(db) && c in db.changes
    ensures ChangePlaced(db, c) && WalletsOk(db.wallets, db.ledger)
  {
  }

  lemma OrderPlacedOf(db: Db, o: OrderId)
    requires BooksInv(db) && o in db.orders
    ensures OrderPlaced(db, o)
  {
  }

  lemma ItemStays(a: Db, b: Db, change: Change, item: QuoteItem)
    requires Grown(a, b) && ItemOk(a, change, item)
    ensures ItemOk(b, change, item)
  {
  }

  // ---------- one item ----------

  lemma ChargeItemKeeps(db: Db, c: ChangeId, item: QuoteItem, id: OrderId)
    requires BooksInv(db) && c in db.changes && ItemOk(db, db.changes[c], item) && id !in db.orders
    requires db.changes[c].owner in db.wallets && item.charge <= db.wallets[db.changes[c].owner]
    ensures var change := db.changes[c];
            var after := WithBooks(db, change.owner, ChargedItem(BooksOf(db, change.owner), change, c, item, id));
            BooksInv(after) && Shifts(db, after, c, -item.charge) && ItemOk(after, change, item)
  {
    hide BooksInv, RunningBalances;
    var change := db.changes[c];
    var after := WithBooks(db, change.owner, ChargedItem(BooksOf(db, change.owner), change, c, item, id));
    PlacedOf(db, c);
    OrderPlacedOf(db, item.order);
    BookedKeeps(db, after, Entry(change.owner, -item.charge, db.wallets[change.owner] - item.charge, Some(id),
                                 Some(c)));
  }

  /** The source order is retired, and credited when anything of it is left. */
  lemma RetireItemKeeps(db: Db, c: ChangeId, item: QuoteItem)
    requires BooksInv(db) && c in db.changes && ItemOk(db, db.changes[c], item) && db.changes[c].owner in db.wallets
    ensures var change := db.changes[c];
            var after := WithBooks(db, change.owner,
                                   RetiredItem(BooksOf(db, change.owner), change, c, item,
                                               RetiredOrder(db.orders[item.order])));
            BooksInv(after) && Shifts(db, after, c, item.refund)
  {
    hide BooksInv, RunningBalances, ChangePlaced;
    var change := db.changes[c];
    var after := WithBooks(db, change.owner,
                           RetiredItem(BooksOf(db, change.owner), change, c, item,
                                       RetiredOrder(db.orders[item.order])));
    PlacedOf(db, c);
    if item.refund > 0 {
      BookedKeeps(db, after, Entry(change.owner, item.refund, db.wallets[change.owner] + item.refund, Some(item.order),
                                   Some(c)));
    } else {
      assert after.wallets == db.wallets;
      BooksGrowth(db, after);
    }
  }

  lemma ItemKeeps(db: Db, c: ChangeId, item: QuoteItem, id: OrderId)
    requires BooksInv(db) && c in db.changes && db.changes[c].owner in db.wallets && ItemOk(db, db.changes[c], item)
    ensures var change := db.changes[c];
            var r := SettleItem(BooksOf(db, change.owner), change, c, item, id);
            r.Some? ==>
              var after := WithBooks(db, change.owner, r.value);
              BooksInv(after) && Shifts(db, after, c, item.refund - item.charge)
  {
    hide BooksInv, Shifts, ChangePlaced;
    var change := db.changes[c];
    var s := BooksOf(db, change.owner);
    var r := SettleItem(s, change, c, item, id);
    if r.Some? {
      var charged := ChargedItem(s, change, c, item, id);
      var mid := WithBooks(db, change.owner, charged);
      ChargeItemKeeps(db, c, item, id);
      assert BooksOf(mid, change.owner) == charged;
      RetireItemKeeps(mid, c, item);
      assert WithBooks(mid, change.owner, r.value) == WithBooks(db, change.owner, r.value);
      ShiftsAdd(db, mid, WithBooks(db, change.owner, r.value), c, -item.charge, item.refund);
    }
  }

  // ---------- the loop ----------

  lemma {:induction false} ItemsKeep(db: Db, c: ChangeId, items: seq<QuoteItem>, ids: seq<OrderId>)
    requires BooksInv(db) && c in db.changes && db.changes[c].owner in db.wallets && |items| == |ids|
    requires forall k :: 0 <= k < |items| ==> ItemOk(db, db.changes[c], items[k])
    ensures var change := db.changes[c];
            var r := SettleItems(BooksOf(db, change.owner), change, c, items, ids);
            r.Some? ==>
              var after := WithBooks(db, change.owner, r.value);
              BooksInv(after) && Shifts(db, after, c, SumRefunds(items) - SumCharges(items))
  {
    hide BooksInv, Shifts, ChangePlaced, SettleItem, ItemOk;
    var change := db.changes[c];
    var s := BooksOf(db, change.owner);
    if items == [] {
      assert WithBooks(db, change.owner, s) == db;
      NoShift(db, c);
    } else {
      var n := |items| - 1;
      ItemsKeep(db, c, items[..n], ids[..n]);
      var before := SettleItems(s, change, c, items[..n], ids[..n]);
      if before.Some? {
        LastItemKeeps(db, c, items, ids, before.value);
      }
    }
  }

  lemma LastItemKeeps(db: Db, c: ChangeId, items: seq<QuoteItem>, ids: seq<OrderId>, before: Ledgered)
    requires c in db.changes && db.changes[c].owner in db.wallets && 0 < |items| == |ids|
    requires ItemOk(db, db.changes[c], items[|items| - 1])
    requires var change := db.changes[c];
             var n := |items| - 1;
             SettleItems(BooksOf(db, change.owner), change, c, items[..n], ids[..n]) == Some(before)
             && BooksInv(WithBooks(db, change.owner, before))
             && Shifts(db, WithBooks(db, change.owner, before), c, SumRefunds(items[..n]) - SumCharges(items[..n]))
    ensures var change := db.changes[c];
            var r := SettleItems(BooksOf(db, change.owner), change, c, items, ids);
            r.Some? ==>
              var after := WithBooks(db, change.owner, r.value);
              BooksInv(after) && Shifts(db, after, c, SumRefunds(items) - SumCharges(items))
  {
    hide BooksInv, ChangePlaced, SettleItem, ItemOk, Shifts;
    var change := db.changes[c];
    var n := |items| - 1;
    var mid := WithBooks(db, change.owner, before);
    assert BooksOf(mid, change.owner) == before;
    ShiftsGrown(db, mid, c, SumRefunds(items[..n]) - SumCharges(items[..n]));
    ItemStays(db, mid, change, items[n]);
    ItemKeeps(mid, c, items[n], ids[n]);
    var r := SettleItem(before, change, c, items[n], ids[n]);
    if r.Some? {
      assert WithBooks(mid, change.owner, r.value) == WithBooks(db, change.owner, r.value);
      ShiftsAdd(db, mid, WithBooks(db, change.owner, r.value), c,
                SumRefunds(items[..n]) - SumCharges(items[..n]), items[n].refund - items[n].charge);
    }
  }

  lemma ShiftsGrown(a: Db, b: Db, c: ChangeId, delta: int)
    requires Shifts(a, b, c, delta)
    ensures Grown(a, b)
  {
  }

  // ---------- the whole settlement ----------

  lemma OpeningKeeps(db: Db, c: ChangeId)
    requires BooksInv(db) && c in db.changes
    ensures db.changes[c].owner in db.wallets
    ensures var change := db.changes[c];
            var after := WithBooks(db, change.owner, OpeningBooks(db, change, c));
            && BooksInv(after) && Grown(db, after)
            && (forall d :: d != c ==> Total(after.ledger, HeldFor(d)) == Total(db.ledger, HeldFor(d))
                                       && Total(after.ledger, OfChange(d)) == Total(db.ledger, OfChange(d)))
            && Total(after.ledger, HeldFor(c)) == Total(db.ledger, HeldFor(c)) + change.reservation
            && Total(after.ledger, OfChange(c)) == Total(db.ledger, OfChange(c)) + change.reservation
  {
    hide BooksInv, RunningBalances;
    var change := db.changes[c];
    PlacedOf(db, c);
    var after := WithBooks(db, change.owner, OpeningBooks(db, change, c));
    if change.reservation > 0 {
      BookedKeeps(db, after, Entry(change.owner, change.reservation, db.wallets[change.owner] + change.reservation,
                                   None, Some(c)));
    } else {
      assert after.wallets == db.wallets;
      BooksGrowth(db, after);
    }
  }

  /** Opening, items: the books balance, nothing is held any more, and the change's account is refunds minus charges. */
  lemma SettledBooks(db: Db, c: ChangeId, ids: seq<OrderId>)
    requires LedgerInv(db) && c in db.changes && InFlight(db.changes[c]) && |ids| == |db.changes[c].items|
    ensures db.changes[c].owner in db.wallets
    ensures var change := db.changes[c];
            var r := SettleItems(OpeningBooks(db, change, c), change, c, change.items, ids);
            r.Some? ==>
              var after := WithBooks(db, change.owner, r.value);
              && BooksInv(after) && Grown(db, after)
              && (forall d :: d != c ==> Total(after.ledger, HeldFor(d)) == Total(db.ledger, HeldFor(d))
                                         && Total(after.ledger, OfChange(d)) == Total(db.ledger, OfChange(d)))
              && Total(after.ledger, HeldFor(c)) == 0
              && Total(after.ledger, OfChange(c)) == SumRefunds(change.items) - SumCharges(change.items)
              && (forall d, key :: d != c && ReleaseKey(d, key) ==>
                  (key in after.businessKeys <==> key in db.businessKeys))
  {
    hide BooksInv, ChangePlaced, SagaInv, Grown, ItemOk, SettleItems;
    var change := db.changes[c];
    OpenChangeFacts(db, c);
    OpeningKeeps(db, c);
    var mid := WithBooks(db, change.owner, OpeningBooks(db, change, c));
    assert BooksOf(mid, change.owner) == OpeningBooks(db, change, c);
    ItemsOf(mid, c);
    ItemsKeep(mid, c, change.items, ids);
    var r := SettleItems(OpeningBooks(db, change, c), change, c, change.items, ids);
    if r.Some? {
      assert WithBooks(mid, change.owner, r.value) == WithBooks(db, change.owner, r.value);
      ShiftsGrown(mid, WithBooks(db, change.owner, r.value), c, SumRefunds(change.items) - SumCharges(change.items));
      GrownTransitive(db, mid, WithBooks(db, change.owner, r.value));
    }
  }

  lemma GrownTransitive(a: Db, b: Db, c: Db)
    requires Grown(a, b) && Grown(b, c)
    ensures Grown(a, c)
  {
  }

  lemma ItemsOf(db: Db, c: ChangeId)
    requires BooksInv(db) && c in db.changes
    ensures forall k :: 0 <= k < |db.changes[c].items| ==> ItemOk(db, db.changes[c], db.changes[c].items[k])
  {
  }

  /** A committed settlement keeps the books and turns the hold into refunds minus charges. */
  lemma SettlementKeeps(db: Db, tk: Ticket, ids: seq<OrderId>)
    requires LedgerInv(db) && CompletePlanChange(db, tk, ids).Committed?
    ensures LedgerInv(CompletePlanChange(db, tk, ids).db)
  {
    hide BooksInv, ChangePlaced, Grown, ItemOk, SettleItems, SagaInv, OpeningBooks, CanSettle, Evolves;
    var c := tk.row.change.value;
    var after := CompletePlanChange(db, tk, ids).db;
    SettledBooks(db, c, ids);
    var s := SettleItems(OpeningBooks(db, db.changes[c], c), db.changes[c], c, db.changes[c].items, ids).value;
    var mid := WithBooks(db, db.changes[c].owner, s);
    CommittedBooks(db, mid, after, c);
    CommittedSaga(db, mid, after, c);
  }

  lemma CommittedBooks(db: Db, mid: Db, after: Db, c: ChangeId)
    requires BooksInv(mid) && c in mid.changes && after.orders == mid.orders && PlacementKept(mid, after)
    requires after.wallets == mid.wallets && after.ledger == mid.ledger && after.businessKeys == mid.businessKeys
    requires after.changes
             == mid.changes[c := mid.changes[c].(status := ChangeSucceeded, saga := Settled, funds := FundsSettled)]
    ensures BooksInv(after)
  {
    hide BooksInv;
    PlacedOf(mid, c);
    BooksGrowth(mid, after);
  }

  lemma CommittedSaga(db: Db, mid: Db, after: Db, c: ChangeId)
    requires SagaInv(db) && c in db.changes && after.ledger == mid.ledger && after.businessKeys == mid.businessKeys
    requires forall d :: d != c ==> Total(mid.ledger, HeldFor(d)) == Total(db.ledger, HeldFor(d))
                                    && Total(mid.ledger, OfChange(d)) == Total(db.ledger, OfChange(d))
    requires Total(mid.ledger, HeldFor(c)) == 0
    requires Total(mid.ledger, OfChange(c)) == SumRefunds(db.changes[c].items) - SumCharges(db.changes[c].items)
    requires forall d, key :: d != c && ReleaseKey(d, key) ==> (key in mid.businessKeys <==> key in db.businessKeys)
    requires after.changes
             == db.changes[c := db.changes[c].(status := ChangeSucceeded, saga := Settled, funds := FundsSettled)]
    ensures SagaInv(after)
  {
    assert Conserved(after, c);
    OthersConserved(db, after, c);
  }

  // ---------- coverage ----------

  /** No source order of the items has been credited by a settlement before. */
  predicate Uncredited(keys: set<BusinessKey>, items: seq<QuoteItem>) {
    forall k :: 0 <= k < |items| ==> items[k].refund > 0 ==> SourceRefund(items[k].order) !in keys
  }

  predicate FreshIds(orders: map<OrderId, Order>, ids: seq<OrderId>) {
    (forall k :: 0 <= k < |ids| ==> ids[k] !in orders) && (forall j, k :: 0 <= j < k < |ids| ==> ids[j] != ids[k])
  }

  predicate Credits(items: seq<QuoteItem>, o: OrderId) {
    exists k :: 0 <= k < |items| && items[k].refund > 0 && items[k].order == o
  }

  /** What a completed loop leaves behind: the balance, the new orders, the used credit keys. */
  lemma {:induction false} LoopEffect(s: Ledgered, change: Change, c: ChangeId, items: seq<QuoteItem>,
                                      ids: seq<OrderId>)
    requires |items| == |ids| && forall k :: 0 <= k < |items| ==> items[k].refund >= 0
    ensures var r := SettleItems(s, change, c, items, ids);
            r.Some? ==>
              && r.value.books.balance == s.books.balance - SumCharges(items) + SumRefunds(items)
              && (forall o :: o in r.value.books.orders <==> o in s.books.orders || o in ids)
              && (forall o :: SourceRefund(o) in r.value.keys <==> SourceRefund(o) in s.keys || Credits(items, o))
  {
    hide OrdersEvolve, Credits;
    if items == [] {
      NothingCredited();
    } else {
      var n := |items| - 1;
      LoopEffect(s, change, c, items[..n], ids[..n]);
      assert ids == ids[..n] + [ids[n]];
      CreditsOfLast(items);
    }
  }

  lemma NothingCredited()
    ensures forall o :: !Credits([], o)
  {
  }

  lemma CreditsOfLast(items: seq<QuoteItem>)
    requires items != []
    ensures var n := |items| - 1;
            forall o :: Credits(items, o) <==> Credits(items[..n], o) || (items[n].refund > 0 && items[n].order == o)
  {
    var n := |items| - 1;
    forall o ensures Credits(items, o) <==> Credits(items[..n], o) || (items[n].refund > 0 && items[n].order == o) {
      if Credits(items, o) && !(items[n].refund > 0 && items[n].order == o) {
        var k :| 0 <= k < |items| && items[k].refund > 0 && items[k].order == o;
        assert items[..n][k] == items[k];
      }
      if Credits(items[..n], o) {
        var k :| 0 <= k < n && items[..n][k].refund > 0 && items[..n][k].order == o;
        assert items[k] == items[..n][k];
      }
    }
  }

  /**
   With the reservation back in the balance, the loop never runs short: it completes if and
   only if no source order was credited before, and then the charges cancel the reservation.
   */
  lemma {:induction false} LoopCompletes(s: Ledgered, change: Change, c: ChangeId, items: seq<QuoteItem>,
                                         ids: seq<OrderId>)
    requires |items| == |ids| && FreshIds(s.books.orders, ids)
    requires forall k :: 0 <= k < |items| ==>
               items[k].refund >= 0 && items[k].charge >= 0 && items[k].order in s.books.orders
    requires forall j, k :: 0 <= j < k < |items| ==> items[j].order != items[k].order
    requires SumCharges(items) <= s.books.balance
    ensures SettleItems(s, change, c, items, ids).Some? <==> Uncredited(s.keys, items)
  {
    if items != [] {
      var n := |items| - 1;
      LoopCompletes(s, change, c, items[..n], ids[..n]);
      LoopEffect(s, change, c, items[..n], ids[..n]);
      SumRefundsNonNegative(items[..n]);
      assert Uncredited(s.keys, items) <==>
             Uncredited(s.keys, items[..n]) && (items[n].refund > 0 ==> SourceRefund(items[n].order) !in s.keys) by {
        assert forall k :: 0 <= k < n ==> items[..n][k] == items[k];
      }
      assert !Credits(items[..n], items[n].order);
    }
  }

  lemma {:induction false} SumRefundsNonNegative(items: seq<QuoteItem>)
    requires forall k :: 0 <= k < |items| ==> items[k].refund >= 0
    ensures SumRefunds(items) >= 0
  {
    if items != [] {
      SumRefundsNonNegative(items[..|items| - 1]);
    }
  }

  /**
   Settlement coverage: in any state that satisfies the ledger invariant, the settlement of an
   open change runs out of money for no number of items. It succeeds exactly when no item's
   source was credited before, and the owner ends with the old balance plus all source refunds.
   */
  lemma SettlementIsCovered(db: Db, c: ChangeId, ids: seq<OrderId>)
    requires LedgerInv(db) && c in db.changes && |ids| == |db.changes[c].items| && FreshIds(db.orders, ids)
    ensures db.changes[c].owner in db.wallets
    ensures var change := db.changes[c];
            var r := SettleItems(OpeningBooks(db, change, c), change, c, change.items, ids);
            && (r.Some? <==> Uncredited(db.businessKeys, change.items))
            && (r.Some? ==>
                  r.value.books.balance
                  == db.wallets[change.owner] + change.reservation - SumCharges(change.items) + SumRefunds(change.items)
                  && r.value.books.balance == db.wallets[change.owner] + SumRefunds(change.items))
  {
    hide WalletsOk;
    OpenChangeFacts(db, c);
    var change := db.changes[c];
    var s := OpeningBooks(db, change, c);
    ItemsOf(db, c);
    WalletNonNegative(db, change.owner);
    LoopCompletes(s, change, c, change.items, ids);
    LoopEffect(s, change, c, change.items, ids);
  }

  lemma WalletNonNegative(db: Db, user: UserId)
    requires BooksInv(db) && user in db.wallets
    ensures db.wallets[user] >= 0
  {
  }
}
