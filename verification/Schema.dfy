/**
 The control plane's tables as values. Rows are never deleted; a NULL column is None.

 `tokens` maps every execution token ever handed out to the task it was claimed for,
 `taskKeys` and `businessKeys` are the unique indexes on task idempotency keys and on
 wallet-entry business keys, `settlements` the one on refund settlements.
 */
module Schema {
  import opened Wrappers
  import opened Billing

  type UserId = int
  type NodeId = int
  type InstanceId = int
  type TaskId = int
  type OrderId = int
  type ChangeId = int
  type Token = int

  const LEASE: int := 300 * SECOND
  const MINUTE: int := 60 * SECOND
  const GRACE: int := 7 * DAY
  const PURGE_DELAY: int := 30 * DAY
  const MAX_ATTEMPTS: int := 3

  // ---------- instances ----------

  datatype Status = Deploying | DeploymentFailed | Running | Stopped | DestroyScheduled | Destroyed | Purged

  datatype Runtime = RuntimeRunning | RuntimeStopped | RuntimeOther

  datatype Reason = Expired | Manual | FailedDeployment | Refund | UserNoRefund

  /** Milli-cores and megabytes. */
  datatype Resources = Resources(cpu: int, memory: int)

  datatype Lock = Lock(task: TaskId, token: Token, expires: Instant)

  datatype Instance = Instance(
    owner: UserId, node: NodeId, status: Status, runtime: Runtime, resources: Resources,
    generation: int, expiresAt: Instant, destroyAt: Option<Instant>, reason: Option<Reason>,
    destroyedAt: Option<Instant>, purgeAt: Option<Instant>, lock: Option<Lock>)

  /** A self-hosted node is usable only while its control device is enabled. */
  datatype Node = Node(enabled: bool, selfHosted: bool, deviceEnabled: bool)

  // ---------- tasks ----------

  datatype Action = Create | RetryDeploy | Start | Stop | Update | Restart | Reinstall | Destroy | Purge
                  | Resize | CompensateResize | HostAccess

  datatype TaskStatus = TaskPending | TaskRunning | TaskDone | TaskFailed | TaskReview | TaskCancelled | TaskDiscarded

  datatype TaskKey = CreateKey(instance: InstanceId) | DestroyKey(instance: InstanceId, at: Instant)
                   | PurgeKey(instance: InstanceId, at: Instant) | ResizeKey(change: ChangeId)
                   | CompensateKey(change: ChangeId) | RequestKey(task: TaskId)

  datatype Lease = Lease(token: Token, expires: Instant)

  datatype Task = Task(
    instance: InstanceId, action: Action, key: TaskKey, status: TaskStatus, attempts: int, runAfter: Instant,
    lease: Option<Lease>, generation: int, change: Option<ChangeId>, resources: Resources)

  // ---------- orders, plan changes, wallet ----------

  datatype OrderStatus = OrderDeploying | OrderActive | OrderExpired
                       | OrderExchanged | OrderRefunded | OrderDeployFailed

  datatype Order = Order(owner: UserId, instance: InstanceId, amount: int, status: OrderStatus, start: Instant,
                         end: Instant)

  datatype ChangeStatus = Processing | InReview | ChangeSucceeded | ChangeFailed
  datatype Saga = Applying | Observing | Compensating | Settled | SagaCancelled
  datatype Funds = FundsPending | FundsBlocked | FundsReserved | FundsSettled | FundsReleased

  datatype Change = Change(
    owner: UserId, instance: InstanceId, task: TaskId, source: Resources, target: Resources, reservation: int,
    items: seq<QuoteItem>, status: ChangeStatus, saga: Saga, funds: Funds,
    observed: Option<Resources>, compensation: Option<TaskId>)

  datatype BusinessKey = PendingPurchase(change: ChangeId) | SettleRelease(change: ChangeId)
                       | FailRelease(change: ChangeId)
                       | CancelRelease(change: ChangeId) | ReplacementPurchase(order: OrderId)
                       | SourceRefund(order: OrderId)

  /** A wallet entry; administrators' adjustments carry neither an order nor a change. */
  datatype Entry = Entry(user: UserId, amount: int, after: int, order: Option<OrderId>, change: Option<ChangeId>)

  datatype Db = Db(
    now: Instant,
    nodes: map<NodeId, Node>,
    instances: map<InstanceId, Instance>,
    tasks: map<TaskId, Task>,
    changes: map<ChangeId, Change>,
    orders: map<OrderId, Order>,
    wallets: map<UserId, int>,
    ledger: seq<Entry>,
    tokens: map<Token, TaskId>,
    taskKeys: set<TaskKey>,
    businessKeys: set<BusinessKey>,
    settlements: set<(InstanceId, OrderId)>)

  function EmptyDb(now: Instant): Db {
    Db(now, map[], map[], map[], map[], map[], map[], [], map[], {}, {}, {})
  }

  function PutTask(db: Db, t: TaskId, row: Task): Db {
    db.(tasks := db.tasks[t := row])
  }

  function PutInstance(db: Db, i: InstanceId, row: Instance): Db {
    db.(instances := db.instances[i := row])
  }

  function PutChange(db: Db, c: ChangeId, row: Change): Db {
    db.(changes := db.changes[c := row])
  }

  /** INSERT of a task: the id is fresh and the idempotency key is unique. */
  predicate CanInsertTask(db: Db, t: TaskId, key: TaskKey) {
    t !in db.tasks && key !in db.taskKeys
  }

  function InsertTask(db: Db, t: TaskId, row: Task): Db {
    db.(tasks := db.tasks[t := row], taskKeys := db.taskKeys + {row.key})
  }

  /** One wallet movement: the balance and its ledger entry change together. */
  function Post(db: Db, user: UserId, amount: int, order: Option<OrderId>, change: Option<ChangeId>): Db
    requires user in db.wallets
  {
    var after := db.wallets[user] + amount;
    db.(wallets := db.wallets[user := after], ledger := db.ledger + [Entry(user, amount, after, order, change)])
  }

  // ---------- the instance status machine ----------

  predicate CanTransition(from: Status, to: Status) {
    from == to
    || match from
       case Deploying => to == Running || to == DeploymentFailed
       case DeploymentFailed => to == Deploying || to == DestroyScheduled
       case Running => to == Stopped || to == DestroyScheduled
       case Stopped => to == Running || to == DestroyScheduled
       case DestroyScheduled => to == Running || to == Stopped || to == Destroyed
       case Destroyed => to == Purged
       case Purged => false
  }

  predicate Serving(s: Status) {
    s == Running || s == Stopped
  }

  function ExpectedStates(a: Action): set<Status> {
    match a
    case Create | RetryDeploy => {Deploying}
    case Start => {Stopped, DestroyScheduled}
    case Stop => {Running, DestroyScheduled}
    case Update => {Running}
    case Resize | CompensateResize | Reinstall => {Running, Stopped}
    case HostAccess => {Running, Stopped, DestroyScheduled}
    case Restart => {Running, DestroyScheduled}
    case Destroy => {DestroyScheduled}
    case Purge => {Destroyed}
  }

  /** Work whose lost lease means an unknown container: never replayed without an administrator. */
  predicate Dangerous(a: Action) {
    a.Stop? || a.Update? || a.Restart? || a.Reinstall? || a.Destroy? || a.Purge? || a.RetryDeploy? || a.Resize?
    || a.HostAccess?
  }
}
