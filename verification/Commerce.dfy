/**
 Wallet, purchase, renewal and refund transactions.
 */
module Commerce {
  import opened Wrappers
  import opened Billing
  import opened Refunds
  import opened Schema
  import opened Evolution
  import opened TaskQueue
  import opened Lifecycle

  /** The first sign-in of a user opens an empty wallet. */
  function OpenWallet(db: Db, user: UserId): (after: Db)
    ensures EvolvesQuietly(db, after)
  {
    if user in db.wallets then db else db.(wallets := db.wallets[user := 0])
  }

  predicate CanAdjust(db: Db, user: UserId, amount: int) {
    amount != 0 && user in db.wallets && db.wallets[user] + amount >= 0
  }

  function AdjustWallet(db: Db, user: UserId, amount: int): (after: Db)
    ensures EvolvesQuietly(db, after)
  {
    if !CanAdjust(db, user, amount) then db else Post(db, user, amount, None, None)
  }

  /** A movement that is recorded only when money moves. */
  function Charge(db: Db, user: UserId, amount: int, order: OrderId): (after: Db)
    requires user in db.wallets
    ensures EvolvesQuietly(db, after)
  {
    if amount == 0 then db else Post(db, user, -amount, Some(order), None)
  }

  // ---------- purchase ----------

  datatype Purchase = Purchase(user: UserId, order: OrderId, instance: InstanceId, task: TaskId, node: NodeId,
                               resources: Resources, amount: int, end: Instant)

  predicate CanPurchase(db: Db, p: Purchase) {
    && p.user in db.wallets && 0 <= p.amount <= db.wallets[p.user]
    && p.order !in db.orders && p.instance !in db.instances && CanInsertTask(db, p.task, CreateKey(p.instance))
    && NodeUsable(db, p.node) && !db.nodes[p.node].selfHosted && db.now < p.end
  }

  /** A row that keeps its place, its generation and its lock. */
  function UpdateRow(db: Db, i: InstanceId, row: Instance): (after: Db)
    requires i in db.instances
    requires var was := db.instances[i];
             row.owner == was.owner && row.node == was.node && row.generation == was.generation && row.lock == was.lock
    ensures EvolvesQuietly(db, after)
  {
    PutInstance(db, i, row)
  }

  function InsertRow(db: Db, i: InstanceId, row: Instance): (after: Db)
    requires i !in db.instances && row.lock.None? && row.generation >= 1
    ensures EvolvesQuietly(db, after)
  {
    PutInstance(db, i, row)
  }

  function NewInstance(p: Purchase): (r: Instance)
    ensures r.lock.None? && r.generation >= 1
  {
    Instance(p.user, p.node, Deploying, RuntimeOther, p.resources, 1, p.end, None, None, None, None, None)
  }

  /** `amount` is the payable amount of the benefit quote and `end` the end of the paid months. */
  function PurchaseWithWallet(db: Db, p: Purchase): (after: Db)
    ensures EvolvesQuietly(db, after)
  {
    hide Evolves, NewInstance;
    if !CanPurchase(db, p) then NoChange(db)
    else
      var paid := Charge(db, p.user, p.amount, p.order);
      var booked := PlaceOrder(paid, p.order, Order(p.user, p.instance, p.amount, OrderDeploying, db.now, p.end));
      var placed := InsertRow(booked, p.instance, NewInstance(p));
      var task := Task(p.instance, Create, CreateKey(p.instance), TaskPending, 0, db.now, None, 0, None, p.resources);
      var after := NewTask(placed, p.task, task);
      QuietlyTransitive(db, paid, booked);
      QuietlyTransitive(db, booked, placed);
      QuietlyTransitive(db, placed, after);
      after
  }

  // ---------- deployment on a user's own node ----------

  datatype OwnDeployment = OwnDeployment(user: UserId, instance: InstanceId, task: TaskId, node: NodeId,
                                         resources: Resources)

  predicate CanDeployOwn(db: Db, d: OwnDeployment) {
    d.instance !in db.instances && CanInsertTask(db, d.task, CreateKey(d.instance))
    && NodeUsable(db, d.node) && db.nodes[d.node].selfHosted
  }

  /** An instance without an order and without an end of service. */
  function OwnInstance(d: OwnDeployment): (r: Instance)
    ensures r.lock.None? && r.generation >= 1
  {
    Instance(d.user, d.node, Deploying, RuntimeRunning, d.resources, 1, 0, None, None, None, None, None)
  }

  function DeployOwn(db: Db, d: OwnDeployment): (after: Db)
    ensures EvolvesQuietly(db, after)
  {
    hide Evolves, OwnInstance;
    if !CanDeployOwn(db, d) then NoChange(db)
    else
      var placed := InsertRow(db, d.instance, OwnInstance(d));
      var task := Task(d.instance, Create, CreateKey(d.instance), TaskPending, 0, db.now, None, 0, None, d.resources);
      var after := NewTask(placed, d.task, task);
      QuietlyTransitive(db, placed, after);
      after
  }

  // ---------- renewal ----------

  datatype Renewal = Renewal(source: OrderId, order: OrderId, task: TaskId, amount: int, end: Instant)

  predicate ExpiredPlan(row: Instance) {
    row.status == DestroyScheduled && row.reason == Some(Expired)
  }

  /** Host-access work is not in the source's list of conflicts; an expired plan's own destroy task is tolerated. */
  predicate BlocksRenewal(db: Db, t: TaskId, i: InstanceId)
    requires t in db.tasks && i in db.instances
  {
    var row := db.tasks[t];
    row.instance == i && (row.status == TaskPending || row.status == TaskRunning)
    && !row.action.HostAccess? && !(ExpiredPlan(db.instances[i]) && row.action.Destroy?)
  }

  predicate CanRenew(db: Db, r: Renewal) {
    r.source in db.orders && (db.orders[r.source].status == OrderActive || db.orders[r.source].status == OrderExpired)
    && var i := db.orders[r.source].instance;
       var user := db.orders[r.source].owner;
       i in db.instances && LockFree(db, i)
       && (forall t :: t in db.tasks ==> !BlocksRenewal(db, t, i))
       && (Serving(db.instances[i].status) || ExpiredPlan(db.instances[i]))
       && user in db.wallets && 0 <= r.amount <= db.wallets[user]
       && r.order !in db.orders && CanInsertTask(db, r.task, RequestKey(r.task))
       && Later(db.now, db.instances[i].expiresAt) < r.end
  }

  /** The renewed instance serves again and every plan against it is withdrawn. */
  function RenewedInstance(row: Instance, end: Instant): (r: Instance)
    ensures r.owner == row.owner && r.node == row.node && r.generation == row.generation && r.lock == row.lock
  {
    var runtime := CoercedRuntime(row.runtime);
    row.(status := if runtime.RuntimeRunning? then Running else Stopped, runtime := runtime, expiresAt := end,
         purgeAt := None, destroyAt := None, reason := None, destroyedAt := None)
  }

  /** A renewed expired instance that is not running is started again. */
  function RestartRenewed(db: Db, i: InstanceId, before: Instance, t: TaskId): (after: Db)
    requires CanInsertTask(db, t, RequestKey(t))
    ensures EvolvesQuietly(db, after)
  {
    if ExpiredPlan(before) && !CoercedRuntime(before.runtime).RuntimeRunning?
    then InsertTask(db, t, Task(i, Start, RequestKey(t), TaskPending, 0, db.now, None, 0, None, before.resources))
    else db
  }

  function PlaceOrder(db: Db, o: OrderId, row: Order): (after: Db)
    requires o !in db.orders
    ensures EvolvesQuietly(db, after)
  {
    db.(orders := db.orders[o := row])
  }

  function RenewWithWallet(db: Db, r: Renewal): (after: Db)
    ensures EvolvesQuietly(db, after)
  {
    hide Evolves, BlocksRenewal, RenewedInstance;
    if !CanRenew(db, r) then NoChange(db)
    else
      var i := db.orders[r.source].instance;
      var user := db.orders[r.source].owner;
      var row := db.instances[i];
      var paid := Charge(db, user, r.amount, r.order);
      var booked := PlaceOrder(paid, r.order,
                               Order(user, i, r.amount, OrderActive, Later(db.now, row.expiresAt), r.end));
      var renewed := UpdateRow(booked, i, RenewedInstance(row, r.end));
      var after := RestartRenewed(renewed, i, row, r.task);
      QuietlyTransitive(db, paid, booked);
      QuietlyTransitive(db, booked, renewed);
      QuietlyTransitive(db, renewed, after);
      after
  }

  // ---------- refund ----------

  /** The refund query: every active order of the instance, in service order, each once. */
  predicate ActiveChain(db: Db, i: InstanceId, user: UserId, chain: seq<OrderId>) {
    && (forall k :: 0 <= k < |chain| ==> chain[k] in db.orders)
    && (forall k :: 0 <= k < |chain| ==>
          db.orders[chain[k]].instance == i && db.orders[chain[k]].owner == user
          && db.orders[chain[k]].status == OrderActive)
    && (forall j, k :: 0 <= j < k < |chain| ==> chain[j] != chain[k])
    && (forall j, k :: 0 <= j < k < |chain| ==> db.orders[chain[j]].start <= db.orders[chain[k]].start)
    && (forall o :: o in db.orders ==>
          (db.orders[o].instance == i && db.orders[o].owner == user && db.orders[o].status == OrderActive ==>
             o in chain))
  }

  function Segments(db: Db, chain: seq<OrderId>): (s: seq<Segment>)
    requires forall k :: 0 <= k < |chain| ==> chain[k] in db.orders
    ensures |s| == |chain|
  {
    seq(|chain|, k requires 0 <= k < |chain| =>
      var o := db.orders[chain[k]]; Segment(chain[k], true, o.amount, o.start, o.end, true))
  }

  /** Wallet and orders while a settlement's lines are being written; the balance is written back at the end. */
  datatype Books = Books(orders: map<OrderId, Order>, ledger: seq<Entry>, balance: int)

  function RefundLine(b: Books, user: UserId, s: Segment, cutoff: Instant): Books
    requires s.id in b.orders
  {
    var amount := RefundAmountForSegment(s, cutoff);
    var row := b.orders[s.id].(status := OrderRefunded, end := Later(cutoff, s.start));
    if amount > 0
    then Books(b.orders[s.id := row], b.ledger + [Entry(user, amount, b.balance + amount, Some(s.id), None)],
               b.balance + amount)
    else b.(orders := b.orders[s.id := row])
  }

  function RefundLines(b: Books, user: UserId, segments: seq<Segment>, cutoff: Instant): (after: Books)
    requires forall k :: 0 <= k < |segments| ==> segments[k].id in b.orders
    ensures after.orders.Keys == b.orders.Keys && OrdersEvolve(b.orders, after.orders)
  {
    if segments == [] then b
    else
      var before := RefundLines(b, user, segments[..|segments| - 1], cutoff);
      RefundLine(before, user, segments[|segments| - 1], cutoff)
  }

  /** The lines add up: the balance moves by exactly their total. */
  lemma {:induction false} LinesPay(b: Books, user: UserId, segments: seq<Segment>, cutoff: Instant)
    requires forall k :: 0 <= k < |segments| ==> segments[k].id in b.orders && segments[k].active
    ensures RefundLines(b, user, segments, cutoff).balance == b.balance + LinesTotal(segments, cutoff)
  {
    hide RefundAmountForSegment, OrdersEvolve;
    if segments != [] {
      LinesPay(b, user, segments[..|segments| - 1], cutoff);
      LineIsPositive(segments[|segments| - 1], cutoff);
    }
  }

  lemma LineIsPositive(s: Segment, cutoff: Instant)
    ensures RefundAmountForSegment(s, cutoff) >= 0
  {
    ProrationBounds(s.amount, s.start, s.end, Later(cutoff, s.start));
  }

  /** What the refund does to the instance: nothing when its resources are already gone. */
  predicate Refundable(row: Instance) {
    row.reason != Some(UserNoRefund) && (Serving(row.status) || row.status == Destroyed || row.status == Purged)
  }

  function RefundedInstance(row: Instance, cutoff: Instant): (r: Instance)
    ensures r.owner == row.owner && r.node == row.node && r.generation == row.generation && r.lock == row.lock
  {
    if Serving(row.status)
    then row.(status := DestroyScheduled, runtime := CoercedRuntime(row.runtime), expiresAt := cutoff,
              destroyAt := Some(cutoff),
                  reason := Some(Refund), destroyedAt := None, purgeAt := None)
    else row
  }

  predicate CanRefund(db: Db, order: OrderId, chain: seq<OrderId>) {
    order in db.orders
    && var i := db.orders[order].instance;
       var user := db.orders[order].owner;
       ActiveChain(db, i, user, chain)
       && var segments := Segments(db, chain);
          var cutoff := RefundCutoffAt(db.now);
          ValidChain(segments)
          && QuotedTotal(segments, cutoff) >= 1
          && (i, order) !in db.settlements
          && user in db.wallets
          && LinesTotal(segments, cutoff) == QuotedTotal(segments, cutoff)
          && i in db.instances && Refundable(db.instances[i])
  }

  function RefundOrder(db: Db, order: OrderId, chain: seq<OrderId>): (after: Db)
    ensures EvolvesQuietly(db, after)
  {
    if !CanRefund(db, order, chain) then db
    else
      var i := db.orders[order].instance;
      var user := db.orders[order].owner;
      var cutoff := RefundCutoffAt(db.now);
      var books := RefundLines(Books(db.orders, db.ledger, db.wallets[user]), user, Segments(db, chain), cutoff);
      db.(orders := books.orders, ledger := books.ledger, wallets := db.wallets[user := books.balance],
          instances := db.instances[i := RefundedInstance(db.instances[i], cutoff)],
          settlements := db.settlements + {(i, order)})
  }

  // ---------- order bookkeeping in statements of their own ----------

  function MoveOrders(db: Db, i: InstanceId, from: set<OrderStatus>, to: OrderStatus): (after: Db)
    requires OrderRefunded !in from
    ensures BooksOnly(db, after) && after.changes == db.changes
  {
    db.(orders := map o | o in db.orders ::
          if db.orders[o].instance == i && db.orders[o].status in from
          then db.orders[o].(status := to)
          else db.orders[o])
  }

  function ActivateOrders(db: Db, i: InstanceId): (after: Db)
    ensures BooksOnly(db, after) && after.changes == db.changes
  {
    MoveOrders(db, i, {OrderDeploying}, OrderActive)
  }

  function ExpireOrders(db: Db, i: InstanceId): (after: Db)
    ensures BooksOnly(db, after) && after.changes == db.changes
  {
    MoveOrders(db, i, {OrderActive, OrderDeploying}, OrderExpired)
  }

  function FailOrders(db: Db, i: InstanceId): (after: Db)
    ensures BooksOnly(db, after) && after.changes == db.changes
  {
    MoveOrders(db, i, {OrderDeploying}, OrderDeployFailed)
  }
}
