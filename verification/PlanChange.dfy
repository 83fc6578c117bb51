/**
 The plan-change saga: money is held, a remote resize is attempted, and the change is settled,
 failed or compensated. One function per transaction.
 */
module PlanChange {
  import opened Wrappers
  import opened Billing
  import opened Schema
  import opened Evolution
  import opened TaskQueue
  import opened Commerce

  // ---------- opening ----------

  /** Everything the create transaction reads besides the tables: the catalogue's answer and the node's. */
  datatype Opening = Opening(change: ChangeId, task: TaskId, owner: UserId, instance: InstanceId, quote: Quote,
                             target: Resources, catalogueAgrees: bool, rate: Fen)

  predicate BlocksChange(row: Task, i: InstanceId) {
    row.instance == i && (row.status == TaskPending || row.status == TaskRunning) && !row.action.HostAccess?
  }

  /** The stored order still is what the quote was built from, and the item prices it at today's rate. */
  predicate ItemConfirmed(db: Db, p: Opening, item: QuoteItem) {
    item.order in db.orders
    && var o := db.orders[item.order];
       && o.owner == p.owner && o.instance == p.instance && o.status == OrderActive
       && item.paid == o.amount && item.sourceStart == o.start && item.sourceEnd == o.end
       && item == ItemFor(SourceOrder(item.order, o.amount, o.start, o.end), p.quote.cutoff, p.rate)
  }

  predicate CanOpenChange(db: Db, p: Opening) {
    && Balanced(p.quote)
    && p.instance in db.instances && db.instances[p.instance].owner == p.owner
    && Serving(db.instances[p.instance].status)
    && p.catalogueAgrees && p.quote.cutoff <= db.now
    && (forall t :: t in db.tasks ==> !BlocksChange(db.tasks[t], p.instance))
    && db.instances[p.instance].node in db.nodes && db.nodes[db.instances[p.instance].node].enabled
    && p.change !in db.changes && CanInsertTask(db, p.task, ResizeKey(p.change))
    && (forall k :: 0 <= k < |p.quote.items| ==> ItemConfirmed(db, p, p.quote.items[k]))
    && (forall j, k :: 0 <= j < k < |p.quote.items| ==> p.quote.items[j].order != p.quote.items[k].order)
    && p.quote.charge >= 0
    && (p.quote.charge > 0 ==> p.owner in db.wallets && p.quote.charge <= db.wallets[p.owner])
  }

  function Hold(db: Db, user: UserId, amount: int, c: ChangeId): (after: Db)
    requires amount > 0 ==> user in db.wallets
    ensures BooksOnly(db, after) && after.orders == db.orders
  {
    if amount <= 0 then db
    else Post(db, user, -amount, None, Some(c)).(businessKeys := db.businessKeys + {PendingPurchase(c)})
  }

  function NewChange(p: Opening, source: Resources): Change {
    Change(p.owner, p.instance, p.task, source, p.target, p.quote.charge, p.quote.items, Processing, Applying,
           FundsPending, None, None)
  }

  function RecordChange(db: Db, c: ChangeId, row: Change): (after: Db)
    requires c !in db.changes
    ensures BooksOnly(db, after) && after.orders == db.orders
  {
    PutChange(db, c, row)
  }

  /** Reserve the target price, bump the instance's generation and queue the resize, all in one transaction. */
  function OpenChange(db: Db, p: Opening): (after: Db)
    ensures BooksOnly(db, after) && after.orders == db.orders
  {
    hide Evolves, ItemConfirmed, BlocksChange, Balanced;
    if !CanOpenChange(db, p) then NoChange(db)
    else
      var row := db.instances[p.instance];
      var held := Hold(db, p.owner, p.quote.charge, p.change);
      var bumped := BumpGeneration(held, p.instance);
      var recorded := RecordChange(bumped, p.change, NewChange(p, row.resources));
      var after := NewTask(recorded, p.task, Task(p.instance, Resize, ResizeKey(p.change), TaskPending, 0, db.now, None,
                                                  row.generation + 1, Some(p.change), p.target));
      BooksOnlyTransitive(db, held, bumped);
      BooksOnlyTransitive(db, bumped, recorded);
      BooksOnlyTransitive(db, recorded, after);
      after
  }

  // ---------- status updates without money ----------

  function MarkBlocked(db: Db, c: ChangeId): (after: Db)
    ensures BooksOnly(db, after) && after.orders == db.orders
  {
    if c !in db.changes || db.changes[c].status != Processing then db
    else PutChange(db, c, db.changes[c].(status := InReview, saga := Observing, funds := FundsBlocked))
  }

  predicate Resumable(db: Db, c: ChangeId) {
    c in db.changes
    && (db.changes[c].status == Processing || (db.changes[c].status == InReview && db.changes[c].funds == FundsBlocked))
  }

  function ResumeBlocked(db: Db, c: ChangeId): (after: Db)
    ensures BooksOnly(db, after) && after.orders == db.orders
  {
    if !Resumable(db, c) then db else PutChange(db, c, db.changes[c].(status := Processing))
  }

  function RecordObservation(db: Db, c: ChangeId, seen: Resources): (after: Db)
    ensures BooksOnly(db, after) && after.orders == db.orders
  {
    if c !in db.changes then db else PutChange(db, c, db.changes[c].(observed := Some(seen)))
  }

  // ---------- giving the reservation back ----------

  function Release(db: Db, c: ChangeId, key: BusinessKey): (after: Db)
    requires c in db.changes
    requires db.changes[c].reservation > 0 ==> db.changes[c].owner in db.wallets
    ensures BooksOnly(db, after) && after.orders == db.orders
  {
    var change := db.changes[c];
    var paid := if change.reservation <= 0 then db
                else Post(db, change.owner, change.reservation, None,
                          Some(c)).(businessKeys := db.businessKeys + {key});
    PutChange(paid, c, change.(status := ChangeFailed, saga := SagaCancelled, funds := FundsReleased))
  }

  predicate CanPay(db: Db, c: ChangeId)
    requires c in db.changes
  {
    db.changes[c].reservation > 0 ==> db.changes[c].owner in db.wallets
  }

  function FailChange(db: Db, c: ChangeId): (after: Db)
    ensures BooksOnly(db, after) && after.orders == db.orders
  {
    if c !in db.changes || db.changes[c].status != Processing || !CanPay(db, c) then db
    else Release(db, c, FailRelease(c))
  }

  function CancelSettlement(db: Db, c: ChangeId): (after: Db)
    ensures BooksOnly(db, after) && after.orders == db.orders
  {
    if c !in db.changes || db.changes[c].saga == SagaCancelled || !CanPay(db, c) then db
    else Release(db, c, CancelRelease(c))
  }

  // ---------- user cancellation ----------

  predicate ActiveResize(row: Task, i: InstanceId) {
    row.instance == i && row.action.Resize? && (row.status == TaskPending || row.status == TaskRunning)
  }

  predicate CanRequestCancel(db: Db, c: ChangeId) {
    c in db.changes && db.changes[c].instance in db.instances
    && db.changes[c].saga !in {SagaCancelled, Settled, Compensating}
    && db.changes[c].status != ChangeFailed && db.changes[c].status != ChangeSucceeded
  }

  /** The source resources were observed and no resize can change them any more. */
  predicate ObservedAtSource(db: Db, c: ChangeId)
    requires c in db.changes
  {
    db.changes[c].observed == Some(db.changes[c].source)
    && forall t :: t in db.tasks ==> !ActiveResize(db.tasks[t], db.changes[c].instance)
  }

  function CancelledResize(row: Task, i: InstanceId): (r: Task)
    ensures SameTaskFacts(row, r) && r.lease == row.lease && !(r.status.TaskPending? && !row.status.TaskPending?)
    ensures r.status == row.status || (row.status.TaskPending? && r.status.TaskCancelled?)
  {
    if row.instance == i && row.action.Resize? && row.status == TaskPending then row.(status := TaskCancelled) else row
  }

  /** Queued resizes of the instance are cancelled; running and reviewed ones are not touched. */
  function CancelPendingResizes(db: Db, i: InstanceId): (after: Db)
    ensures QueueOnly(db, after)
  {
    db.(tasks := map t | t in db.tasks :: CancelledResize(db.tasks[t], i))
  }

  /** The bump is conditional on the status. */
  function BumpIfServing(db: Db, i: InstanceId): (after: Db)
    requires i in db.instances
    ensures QueueOnly(db, after)
  {
    if Serving(db.instances[i].status) then BumpGeneration(db, i) else db
  }

  function MarkCompensating(db: Db, c: ChangeId, t: TaskId): (after: Db)
    requires c in db.changes
    ensures BooksOnly(db, after) && after.orders == db.orders
  {
    PutChange(db, c, db.changes[c].(status := InReview, saga := Compensating, funds := FundsReserved,
                                    compensation := Some(t)))
  }

  /** The compensating task is stamped with the current generation, bumped or not. */
  function QueueCompensation(db: Db, c: ChangeId, t: TaskId): (after: Db)
    requires c in db.changes && db.changes[c].instance in db.instances && CanInsertTask(db, t, CompensateKey(c))
    ensures BooksOnly(db, after) && after.orders == db.orders
  {
    var change := db.changes[c];
    var i := change.instance;
    var bumped := BumpIfServing(db, i);
    var cleared := CancelPendingResizes(bumped, i);
    var row := Task(i, CompensateResize, CompensateKey(c), TaskPending, 0, db.now, None,
                    bumped.instances[i].generation, Some(c), change.source);
    var queued := NewTask(cleared, t, row);
    var after := MarkCompensating(queued, c, t);
    BooksOnlyTransitive(db, bumped, cleared);
    BooksOnlyTransitive(db, cleared, queued);
    BooksOnlyTransitive(db, queued, after);
    after
  }

  /** Cancellation: settle at once, or queue a compensating resize under a new generation. */
  function RequestCancel(db: Db, c: ChangeId, t: TaskId): (after: Db)
    ensures BooksOnly(db, after) && after.orders == db.orders
  {
    if !CanRequestCancel(db, c) then db
    else if ObservedAtSource(db, c) then
      if !CanPay(db, c) then db
      else
        var bumped := BumpGeneration(db, db.changes[c].instance);
        var after := CancelSettlement(bumped, c);
        BooksOnlyTransitive(db, bumped, after);
        after
    else if !CanInsertTask(db, t, CompensateKey(c)) then db
    else QueueCompensation(db, c, t)
  }

  predicate CanCompensate(db: Db, tk: Ticket, c: ChangeId) {
    c in db.changes && db.changes[c].instance == tk.row.instance && db.changes[c].saga == Compensating
    && tk.row.instance in db.instances
    && (tk.row.generation > 0 ==> db.instances[tk.row.instance].generation == tk.row.generation)
    && CanPay(db, c)
  }

  /** Commit of a compensating resize; the lease is not checked, the saga and the generation are. */
  function CompleteCompensation(db: Db, tk: Ticket): (after: Db)
    ensures BooksOnly(db, after) && after.orders == db.orders
  {
    if tk.row.change.None? || !CanCompensate(db, tk, tk.row.change.value) then db
    else
      var row := db.instances[tk.row.instance];
      var applied := if Serving(row.status)
                     then PutInstance(db, tk.row.instance, row.(resources := tk.row.resources))
                     else db;
      CancelSettlement(applied, tk.row.change.value)
  }

  // ---------- settlement ----------

  /** A ticket without a token comes from a reconcile of reviewed work and needs no lease. */
  predicate SettlementOwned(db: Db, tk: Ticket) {
    tk.row.lease.Some? ==>
      OwnsLease(db, tk) && HoldsLock(db, tk) && Serving(db.instances[tk.row.instance].status)
  }

  /** Everything but the item loop. */
  predicate CanSettle(db: Db, tk: Ticket) {
    tk.row.change.Some? && tk.row.change.value in db.changes
    && var change := db.changes[tk.row.change.value];
       SettlementOwned(db, tk)
       && tk.row.instance in db.instances && Serving(db.instances[tk.row.instance].status)
       && change.owner in db.wallets
  }

  datatype Ledgered = Ledgered(books: Books, keys: set<BusinessKey>)

  /** The first half of an item: charge the replacement order and place it. */
  function ChargedItem(s: Ledgered, change: Change, c: ChangeId, item: QuoteItem, id: OrderId): Ledgered {
    var charged := s.books.balance - item.charge;
    Ledgered(Books(s.books.orders[id := Order(change.owner, change.instance, item.charge, OrderActive, item.start,
                                              item.end)],
                   s.books.ledger + [Entry(change.owner, -item.charge, charged, Some(id), Some(c))], charged),
             s.keys + {ReplacementPurchase(id)})
  }

  /** The second half: retire the source order and credit what was left of it. */
  function RetiredItem(s: Ledgered, change: Change, c: ChangeId, item: QuoteItem, retired: Order): Ledgered {
    var credited := s.books.balance + item.refund;
    var orders := s.books.orders[item.order := retired];
    if item.refund > 0
    then Ledgered(Books(orders,
                        s.books.ledger + [Entry(change.owner, item.refund, credited, Some(item.order), Some(c))],
                          credited),
                  s.keys + {SourceRefund(item.order)})
    else Ledgered(Books(orders, s.books.ledger, s.books.balance), s.keys)
  }

  function RetiredOrder(row: Order): Order {
    if row.status == OrderActive then row.(status := OrderExchanged) else row
  }

  /** None is a rollback of the whole settlement. */
  function SettleItem(s: Ledgered, change: Change, c: ChangeId, item: QuoteItem, id: OrderId): (r: Option<Ledgered>)
    ensures r.Some? ==> OrdersEvolve(s.books.orders, r.value.books.orders) && s.keys <= r.value.keys
  {
    if item.order !in s.books.orders || id in s.books.orders || s.books.balance < item.charge
       || (item.refund > 0 && SourceRefund(item.order) in s.keys)
    then None
    else
      var charged := ChargedItem(s, change, c, item, id);
      Some(RetiredItem(charged, change, c, item, RetiredOrder(charged.books.orders[item.order])))
  }

  /** `ids` are the new orders' ids, one per item. */
  function SettleItems(s: Ledgered, change: Change, c: ChangeId, items: seq<QuoteItem>,
                       ids: seq<OrderId>): (r: Option<Ledgered>)
    requires |items| == |ids|
    ensures r.Some? ==> OrdersEvolve(s.books.orders, r.value.books.orders) && s.keys <= r.value.keys
  {
    if items == [] then Some(s)
    else
      var n := |items| - 1;
      var before := SettleItems(s, change, c, items[..n], ids[..n]);
      if before.None? then None else SettleItem(before.value, change, c, items[n], ids[n])
  }

  /** The reservation goes back to the balance before the first item. */
  function OpeningBooks(db: Db, change: Change, c: ChangeId): Ledgered
    requires change.owner in db.wallets
  {
    var balance := db.wallets[change.owner];
    if change.reservation <= 0 then Ledgered(Books(db.orders, db.ledger, balance), db.businessKeys)
    else Ledgered(Books(db.orders,
                        db.ledger + [Entry(change.owner, change.reservation, balance + change.reservation, None,
                                           Some(c))],
                        balance + change.reservation),
                  db.businessKeys + {SettleRelease(c)})
  }

  datatype Settlement = NothingToSettle | Rejected | Committed(db: Db)

  function CommitBooks(db: Db, tk: Ticket, s: Ledgered): (after: Db)
    requires CanSettle(db, tk) && OrdersEvolve(db.orders, s.books.orders) && db.businessKeys <= s.keys
    ensures BooksOnly(db, after)
  {
    var c := tk.row.change.value;
    db.(orders := s.books.orders, ledger := s.books.ledger,
        wallets := db.wallets[db.changes[c].owner := s.books.balance],
        businessKeys := s.keys,
        instances := db.instances[tk.row.instance := db.instances[tk.row.instance].(resources := tk.row.resources)],
        changes := db.changes[c := db.changes[c].(status := ChangeSucceeded, saga := Settled, funds := FundsSettled)])
  }

  function CompletePlanChange(db: Db, tk: Ticket, ids: seq<OrderId>): (s: Settlement)
    ensures s.Committed? ==> BooksOnly(db, s.db)
  {
    if tk.row.change.None? || tk.row.change.value !in db.changes then Rejected
    else
      var c := tk.row.change.value;
      var change := db.changes[c];
      if change.status != Processing then NothingToSettle
      else if !CanSettle(db, tk) || |ids| != |change.items| then Rejected
      else
        var settled := SettleItems(OpeningBooks(db, change, c), change, c, change.items, ids);
        if settled.None? then Rejected else Committed(CommitBooks(db, tk, settled.value))
  }

  /** Money settles on a serving instance, and a worker settles it only while its lease and its lock are in force. */
  lemma SettlementNeedsItsLease(db: Db, tk: Ticket, ids: seq<OrderId>)
    ensures CompletePlanChange(db, tk, ids).Committed? ==>
              && tk.row.change.Some? && tk.row.change.value in db.changes
              && db.changes[tk.row.change.value].status == Processing
              && tk.row.instance in db.instances && db.instances[tk.row.instance].status in {Running, Stopped}
              && (tk.row.lease.Some? ==> OwnsLease(db, tk) && HoldsLock(db, tk))
  {
    hide SettleItems, BooksOnly;
  }

  /** A reconcile closes the reviewed task it settled. */
  function CloseReviewed(db: Db, t: TaskId, settled: bool): (after: Db)
    ensures QueueOnly(db, after)
  {
    MoveTask(db, t, {TaskReview}, if settled then TaskDone else TaskFailed)
  }
}
