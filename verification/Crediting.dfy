/**
 Refunds: each line keeps the books and pays back at most the order's price, once.
 */
module Crediting {
  import opened Wrappers
  import opened Billing
  import opened Refunds
  import opened Schema
  import opened Evolution
  import opened Commerce
  import opened Ledger
  import opened Accounting

  function WithLines(db: Db, user: UserId, b: Books): Db {
    db.(orders := b.orders, ledger := b.ledger, wallets := db.wallets[user := b.balance])
  }

  function LinesOf(db: Db, user: UserId): Books
    requires user in db.wallets
  {
    Books(db.orders, db.ledger, db.wallets[user])
  }

  predicate LineReady(db: Db, user: UserId, s: Segment) {
    s.id in db.orders && db.orders[s.id].owner == user && db.orders[s.id].status == OrderActive
    && db.orders[s.id].amount == s.amount
  }

  lemma LineKeeps(db: Db, user: UserId, s: Segment, cutoff: Instant)
    requires LedgerInv(db) && user in db.wallets && LineReady(db, user, s)
    ensures var after := WithLines(db, user, RefundLine(LinesOf(db, user), user, s, cutoff));
            LedgerInv(after) && after.orders.Keys == db.orders.Keys && (OrdersInv(db) ==> OrdersInv(after))
            && forall o :: o in db.orders && o != s.id ==> after.orders[o] == db.orders[o]
  {
    hide LedgerInv, RunningBalances, RefundAmountForSegment, OrdersInv;
    var after := WithLines(db, user, RefundLine(LinesOf(db, user), user, s, cutoff));
    BalancesOf(db, user);
    var amount := RefundAmountForSegment(s, cutoff);
    if amount > 0 {
      UntaggedKeeps(db, after, Entry(user, amount, db.wallets[user] + amount, Some(s.id), None));
    } else {
      assert after.wallets == db.wallets;
      StatusOnlyKeeps(db, after);
    }
    if OrdersInv(db) {
      LineNets(db, user, s, cutoff);
    }
  }

  /** An active order has paid its price and got nothing back; the line credits at most that. */
  lemma LineNets(db: Db, user: UserId, s: Segment, cutoff: Instant)
    requires OrdersInv(db) && user in db.wallets && LineReady(db, user, s)
    ensures OrdersInv(WithLines(db, user, RefundLine(LinesOf(db, user), user, s, cutoff)))
  {
    hide RefundAmountForSegment;
    var after := WithLines(db, user, RefundLine(LinesOf(db, user), user, s, cutoff));
    var amount := RefundAmountForSegment(s, cutoff);
    LineBounds(s, cutoff);
    if amount > 0 {
      Appended(db.ledger, Entry(user, amount, db.wallets[user] + amount, Some(s.id), None));
    }
    assert OrderNet(db, s.id);
    assert OrderNet(after, s.id);
    forall o | o in after.orders && o != s.id ensures OrderNet(after, o) {
      NetStays(db, after, o);
    }
  }

  lemma LineBounds(s: Segment, cutoff: Instant)
    ensures 0 <= RefundAmountForSegment(s, cutoff) <= (if s.amount > 0 then s.amount else 0)
  {
    LineCoversQuote(s.(active := true), cutoff);
  }

  lemma BalancesOf(db: Db, user: UserId)
    requires LedgerInv(db) && user in db.wallets
    ensures db.wallets[user] >= 0
  {
  }

  ghost predicate OthersAlone(a: Db, b: Db, segments: seq<Segment>) {
    a.orders.Keys == b.orders.Keys
    && forall o :: o in a.orders && (forall k :: 0 <= k < |segments| ==> segments[k].id != o) ==>
         b.orders[o] == a.orders[o]
  }

  predicate Ready(db: Db, user: UserId, segments: seq<Segment>) {
    && (forall k :: 0 <= k < |segments| ==> segments[k].id in db.orders)
    && (forall k :: 0 <= k < |segments| ==> LineReady(db, user, segments[k]))
    && (forall j, k :: 0 <= j < k < |segments| ==> segments[j].id != segments[k].id)
  }

  lemma {:induction false} LinesKeep(db: Db, user: UserId, segments: seq<Segment>, cutoff: Instant)
    requires LedgerInv(db) && user in db.wallets && Ready(db, user, segments)
    ensures var after := WithLines(db, user, RefundLines(LinesOf(db, user), user, segments, cutoff));
            LedgerInv(after) && OthersAlone(db, after, segments) && (OrdersInv(db) ==> OrdersInv(after))
  {
    hide LedgerInv, OrdersInv, LineReady, RefundLine, OthersAlone;
    var b := LinesOf(db, user);
    if segments == [] {
      assert WithLines(db, user, b) == db;
      NoneTouched(db);
    } else {
      LinesKeep(db, user, segments[..|segments| - 1], cutoff);
      LastLineKeeps(db, user, segments, cutoff);
    }
  }

  lemma NoneTouched(db: Db)
    ensures OthersAlone(db, db, [])
  {
  }

  lemma LastLineKeeps(db: Db, user: UserId, segments: seq<Segment>, cutoff: Instant)
    requires user in db.wallets && segments != [] && Ready(db, user, segments)
    requires var mid := WithLines(db, user, RefundLines(LinesOf(db, user), user, segments[..|segments| - 1], cutoff));
             LedgerInv(mid) && OthersAlone(db, mid, segments[..|segments| - 1]) && (OrdersInv(db) ==> OrdersInv(mid))
    ensures var after := WithLines(db, user, RefundLines(LinesOf(db, user), user, segments, cutoff));
            LedgerInv(after) && OthersAlone(db, after, segments) && (OrdersInv(db) ==> OrdersInv(after))
  {
    hide LedgerInv, OrdersInv, LineReady, RefundLine, OthersAlone;
    var n := |segments| - 1;
    var before := RefundLines(LinesOf(db, user), user, segments[..n], cutoff);
    var mid := WithLines(db, user, before);
    assert LinesOf(mid, user) == before;
    LastReady(db, mid, user, segments);
    LineKeeps(mid, user, segments[n], cutoff);
    var after := RefundLine(before, user, segments[n], cutoff);
    assert WithLines(mid, user, after) == WithLines(db, user, after);
    OutsideAdds(db, mid, WithLines(db, user, after), segments);
  }

  lemma LastReady(a: Db, b: Db, user: UserId, segments: seq<Segment>)
    requires segments != [] && Ready(a, user, segments) && OthersAlone(a, b, segments[..|segments| - 1])
    ensures LineReady(b, user, segments[|segments| - 1])
  {
    var last := segments[|segments| - 1];
    assert LineReady(a, user, last);
    assert b.orders[last.id] == a.orders[last.id];
  }

  lemma OutsideAdds(a: Db, b: Db, c: Db, segments: seq<Segment>)
    requires segments != [] && OthersAlone(a, b, segments[..|segments| - 1])
    requires c.orders.Keys == b.orders.Keys && forall o :: o in b.orders && o != segments[|segments| - 1].id ==>
               c.orders[o] == b.orders[o]
    ensures OthersAlone(a, c, segments)
  {
    forall o | o in a.orders && (forall k :: 0 <= k < |segments| ==> segments[k].id != o)
      ensures c.orders[o] == a.orders[o] {
      assert forall k :: 0 <= k < |segments| - 1 ==> segments[..|segments| - 1][k] == segments[k];
      assert b.orders[o] == a.orders[o];
    }
  }

  lemma ChainReady(db: Db, i: InstanceId, user: UserId, chain: seq<OrderId>)
    requires ActiveChain(db, i, user, chain)
    ensures Ready(db, user, Segments(db, chain))
  {
  }

  /** A refund keeps the books and every order's account; the instance row is not part of either. */
  lemma RefundKeeps(db: Db, order: OrderId, chain: seq<OrderId>)
    requires LedgerInv(db)
    ensures LedgerInv(RefundOrder(db, order, chain))
    ensures OrdersInv(db) ==> OrdersInv(RefundOrder(db, order, chain))
  {
    hide LedgerInv, OrdersInv, Evolves, Ready, RefundLines, ValidChain, QuotedTotal, LinesTotal, OthersAlone, Segments;
    hide RefundedInstance;
    if CanRefund(db, order, chain) {
      var i, user, cutoff := db.orders[order].instance, db.orders[order].owner, RefundCutoffAt(db.now);
      var segments := Segments(db, chain);
      ChainReady(db, i, user, chain);
      LinesKeep(db, user, segments, cutoff);
      var mid := WithLines(db, user, RefundLines(LinesOf(db, user), user, segments, cutoff));
      var after := RefundOrder(db, order, chain);
      SameBooks(mid, after);
    }
  }

  lemma SameBooks(a: Db, b: Db)
    requires LedgerInv(a) && PlacementKept(a, b)
    requires b.wallets == a.wallets && b.ledger == a.ledger && b.businessKeys == a.businessKeys
    requires b.orders == a.orders && b.changes == a.changes
    ensures LedgerInv(b) && (OrdersInv(a) ==> OrdersInv(b))
  {
    StatusOnlyKeeps(a, b);
    if OrdersInv(a) {
      forall o | o in b.orders ensures OrderNet(b, o) {
        NetStays(a, b, o);
      }
    }
  }
}
