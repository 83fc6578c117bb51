/**
 Accounts over the wallet ledger, and what every transaction keeps about money.
 */
module Ledger {
  import opened Wrappers
  import opened Billing
  import opened Schema
  import opened Lifecycle

  // ---------- accounts ----------

  /** Ways to read the ledger. `CreditsTo` counts the entries that pay an order back. */
  datatype Account = OfUser(user: UserId) | ByAdmin(user: UserId) | OfOrder(order: OrderId) | CreditsTo(order: OrderId)
                   | HeldFor(change: ChangeId) | OfChange(change: ChangeId)

  function Weight(a: Account, e: Entry): int {
    match a
    case OfUser(u) => if e.user == u then e.amount else 0
    case ByAdmin(u) => if e.user == u && e.order.None? && e.change.None? then e.amount else 0
    case OfOrder(o) => if e.order == Some(o) then e.amount else 0
    case CreditsTo(o) => if e.order == Some(o) && e.amount > 0 then 1 else 0
    case HeldFor(c) => if e.order.None? && e.change == Some(c) then e.amount else 0
    case OfChange(c) => if e.change == Some(c) then e.amount else 0
  }

  function Total(ledger: seq<Entry>, a: Account): int {
    if ledger == [] then 0 else Total(ledger[..|ledger| - 1], a) + Weight(a, ledger[|ledger| - 1])
  }

  lemma Appended(ledger: seq<Entry>, e: Entry)
    ensures forall a :: Total(ledger + [e], a) == Total(ledger, a) + Weight(a, e)
  {
    assert (ledger + [e])[..|ledger|] == ledger;
  }

  /** An account no entry belongs to is empty. */
  lemma {:induction false} Untouched(ledger: seq<Entry>, a: Account)
    requires forall k :: 0 <= k < |ledger| ==> Weight(a, ledger[k]) == 0
    ensures Total(ledger, a) == 0
  {
    if ledger != [] {
      Untouched(ledger[..|ledger| - 1], a);
    }
  }

  // ---------- wallets ----------

  /** Every entry's balance-after is the sum of its user's entries up to it. */
  ghost predicate RunningBalances(wallets: map<UserId, int>, ledger: seq<Entry>) {
    forall k :: 0 <= k < |ledger| ==>
      ledger[k].user in wallets && ledger[k].after >= 0
      && ledger[k].after == Total(ledger[..k + 1], OfUser(ledger[k].user))
  }

  ghost predicate WalletsOk(wallets: map<UserId, int>, ledger: seq<Entry>) {
    && (forall u :: u in wallets ==> 0 <= wallets[u] == Total(ledger, OfUser(u)))
    && RunningBalances(wallets, ledger)
  }

  lemma PostKeepsWallets(wallets: map<UserId, int>, ledger: seq<Entry>, e: Entry)
    requires WalletsOk(wallets, ledger) && e.user in wallets && e.after == wallets[e.user] + e.amount && e.after >= 0
    ensures WalletsOk(wallets[e.user := e.after], ledger + [e])
  {
    hide RunningBalances;
    Appended(ledger, e);
    PostKeepsPrefixes(wallets, ledger, e);
  }

  lemma PostKeepsPrefixes(wallets: map<UserId, int>, ledger: seq<Entry>, e: Entry)
    requires RunningBalances(wallets, ledger) && e.user in wallets && e.after >= 0
             && e.after == Total(ledger + [e], OfUser(e.user))
    ensures RunningBalances(wallets[e.user := e.after], ledger + [e])
  {
    hide Total;
    var l := ledger + [e];
    forall k | 0 <= k < |l|
      ensures l[k].user in wallets && l[k].after >= 0 && l[k].after == Total(l[..k + 1], OfUser(l[k].user))
    {
      if k < |ledger| {
        assert l[..k + 1] == ledger[..k + 1] && l[k] == ledger[k];
      } else {
        assert l[..k + 1] == l;
      }
    }
  }

  // ---------- entries, keys and items ----------

  predicate EntryOwned(db: Db, e: Entry) {
    (e.order.Some? ==> e.order.value in db.orders && db.orders[e.order.value].owner == e.user)
    && (e.change.Some? ==> e.change.value in db.changes && db.changes[e.change.value].owner == e.user)
  }

  ghost predicate EntriesOwned(db: Db) {
    forall k :: 0 <= k < |db.ledger| ==> EntryOwned(db, db.ledger[k])
  }

  predicate KeyOwned(db: Db, key: BusinessKey) {
    match key
    case PendingPurchase(c) => c in db.changes
    case SettleRelease(c) => c in db.changes
    case FailRelease(c) => c in db.changes
    case CancelRelease(c) => c in db.changes
    case ReplacementPurchase(o) => o in db.orders
    case SourceRefund(o) => o in db.orders
  }

  ghost predicate KeysOwned(db: Db) {
    forall key :: key in db.businessKeys ==> KeyOwned(db, key)
  }

  predicate OrderPlaced(db: Db, o: OrderId)
    requires o in db.orders
  {
    db.orders[o].owner in db.wallets && db.orders[o].amount >= 0
    && db.orders[o].instance in db.instances && OnPlatform(db, db.orders[o].instance)
  }

  predicate ItemOk(db: Db, change: Change, item: QuoteItem) {
    item.charge >= 0
    && item.order in db.orders
    && db.orders[item.order].owner == change.owner && db.orders[item.order].instance == change.instance
    && 0 <= item.refund <= db.orders[item.order].amount
    && db.orders[item.order].status != OrderDeploying
  }

  ghost predicate ChangePlaced(db: Db, c: ChangeId)
    requires c in db.changes
  {
    var change := db.changes[c];
    && change.instance in db.instances && change.reservation == SumCharges(change.items) && change.reservation >= 0
    && change.owner in db.wallets
    && (forall k :: 0 <= k < |change.items| ==> ItemOk(db, change, change.items[k]))
    && (forall j, k :: 0 <= j < k < |change.items| ==> change.items[j].order != change.items[k].order)
  }

  /** What the tables say about each other, before any sum. */
  ghost predicate BooksInv(db: Db) {
    && WalletsOk(db.wallets, db.ledger)
    && EntriesOwned(db)
    && KeysOwned(db)
    && (forall o :: o in db.orders ==> OrderPlaced(db, o))
    && (forall c :: c in db.changes ==> ChangePlaced(db, c))
  }

  // ---------- the saga's money ----------

  predicate InFlight(change: Change) {
    change.status == Processing || change.status == InReview
  }

  predicate ReleaseKey(c: ChangeId, key: BusinessKey) {
    key == SettleRelease(c) || key == FailRelease(c) || key == CancelRelease(c)
  }

  /** The three status columns of a change move together. */
  predicate SagaOk(change: Change) {
    && (change.saga == Settled <==> change.status == ChangeSucceeded)
    && (change.saga == SagaCancelled <==> change.status == ChangeFailed)
    && (change.status == ChangeSucceeded ==> change.funds == FundsSettled)
    && (change.status == ChangeFailed ==> change.funds == FundsReleased)
    && (change.saga == Compensating ==> change.status == InReview && change.funds == FundsReserved)
    && (change.status == InReview ==> change.funds == FundsBlocked || change.funds == FundsReserved)
  }

  /** Held while open; given back once failed; replaced by refunds and charges once succeeded. */
  ghost predicate Conserved(db: Db, c: ChangeId)
    requires c in db.changes
  {
    var change := db.changes[c];
    var held, all := Total(db.ledger, HeldFor(c)), Total(db.ledger, OfChange(c));
    SagaOk(change)
    && match change.status
       case Processing | InReview =>
         held == -change.reservation && all == -change.reservation
         && forall key :: ReleaseKey(c, key) ==> key !in db.businessKeys
       case ChangeFailed => held == 0 && all == 0
       case ChangeSucceeded => held == 0 && all == SumRefunds(change.items) - SumCharges(change.items)
  }

  ghost predicate SagaInv(db: Db) {
    forall c :: c in db.changes ==> Conserved(db, c)
  }

  // ---------- each order's money ----------

  /** What came in for an order, less what was paid back: at most one credit, never more than its price. */
  ghost predicate OrderNet(db: Db, o: OrderId)
    requires o in db.orders
  {
    var row := db.orders[o];
    var net, credits := Total(db.ledger, OfOrder(o)), Total(db.ledger, CreditsTo(o));
    && row.amount >= 0 && -row.amount <= net <= 0 && 0 <= credits <= 1
    && (row.status != OrderRefunded && SourceRefund(o) !in db.businessKeys ==> net == -row.amount && credits == 0)
    && (SourceRefund(o) in db.businessKeys ==> row.status !in {OrderRefunded, OrderActive, OrderDeploying})
  }

  ghost predicate OrdersInv(db: Db) {
    forall o :: o in db.orders ==> OrderNet(db, o)
  }

  lemma NetStays(a: Db, b: Db, o: OrderId)
    requires o in a.orders && o in b.orders && OrderNet(a, o) && a.orders[o].amount == b.orders[o].amount
    requires Total(a.ledger, OfOrder(o)) == Total(b.ledger, OfOrder(o))
             && Total(a.ledger, CreditsTo(o)) == Total(b.ledger, CreditsTo(o))
    requires SourceRefund(o) in a.businessKeys <==> SourceRefund(o) in b.businessKeys
    requires b.orders[o].status == a.orders[o].status
             || (a.orders[o].status in {OrderActive, OrderDeploying} && b.orders[o].status != OrderRefunded)
    ensures OrderNet(b, o)
  {
  }
}
