/**
 What never changes and what only grows. Every statement and transaction of the model
 promises `Evolves`, so every run does.
 */
module Evolution {
  import opened Billing
  import opened Schema

  predicate SameTaskFacts(a: Task, b: Task) {
    a.instance == b.instance && a.action == b.action && a.key == b.key && a.generation == b.generation
    && a.change == b.change && a.resources == b.resources
  }

  /** Done, cancelled or given up: no statement brings such a row back. */
  predicate Ended(s: TaskStatus) {
    s.TaskDone? || s.TaskCancelled? || s.TaskDiscarded?
  }

  ghost predicate TasksEvolve(a: map<TaskId, Task>, b: map<TaskId, Task>) {
    a == b
    || forall t :: t in a ==>
         (t in b && SameTaskFacts(a[t], b[t]) && (Ended(a[t].status) ==> b[t].status == a[t].status))
  }

  /** What a node is never changes, and a revoked device is never enabled again. */
  ghost predicate NodesEvolve(a: map<NodeId, Node>, b: map<NodeId, Node>) {
    a == b
    || forall n :: n in a ==>
         (n in b && a[n].selfHosted == b[n].selfHosted && (b[n].deviceEnabled ==> a[n].deviceEnabled))
  }

  ghost predicate InstancesEvolve(a: map<InstanceId, Instance>, b: map<InstanceId, Instance>) {
    a == b
    || ((forall i :: i in a ==>
         (i in b && a[i].owner == b[i].owner && a[i].node == b[i].node && a[i].generation <= b[i].generation))
        && (forall i :: i in b && i !in a ==> b[i].generation >= 1))
  }

  predicate SameChangeFacts(a: Change, b: Change) {
    a.owner == b.owner && a.instance == b.instance && a.task == b.task && a.source == b.source && a.target == b.target
    && a.reservation == b.reservation && a.items == b.items
  }

  ghost predicate ChangesEvolve(a: map<ChangeId, Change>, b: map<ChangeId, Change>) {
    a == b || forall c :: c in a ==> (c in b && SameChangeFacts(a[c], b[c]))
  }

  predicate SameOrderFacts(a: Order, b: Order) {
    a.owner == b.owner && a.instance == b.instance && a.amount == b.amount && a.start == b.start
  }

  ghost predicate OrdersEvolve(a: map<OrderId, Order>, b: map<OrderId, Order>) {
    a == b
    || forall o :: o in a ==>
         (o in b && SameOrderFacts(a[o], b[o]) && (a[o].status.OrderRefunded? ==> b[o].status.OrderRefunded?))
  }

  /** Exactly the running rows hold a lease. */
  predicate LeaseMatchesStatus(row: Task) {
    row.status.TaskRunning? <==> row.lease.Some?
  }

  /** A later lease with an old token is the old lease, and it was extended only while it had not run out. */
  predicate SameLease(a: Lease, b: Lease, now: Instant) {
    a.token == b.token && (b.expires <= a.expires || now < a.expires)
  }

  ghost predicate StatusesKept(a: map<TaskId, Task>, b: map<TaskId, Task>) {
    a == b || forall t :: t in b ==> (LeaseMatchesStatus(b[t]) || (t in a && !LeaseMatchesStatus(a[t])))
  }

  /** Dangerous work whose lease ran out, or that already left the queue. */
  predicate Sidelined(row: Task, now: Instant) {
    Dangerous(row.action)
    && match row.status
       case TaskPending => false
       case TaskRunning => row.lease.Some? && row.lease.value.expires <= now
       case _ => true
  }

  /** Sidelined work stays sidelined. */
  ghost predicate SidelinedKept(a: Db, b: Db) {
    a.tasks == b.tasks
    || forall t :: t in a.tasks ==> (t in b.tasks && (Sidelined(a.tasks[t], a.now) ==> Sidelined(b.tasks[t], b.now)))
  }

  /** Leases: tokens are issued once, for one task, and never come back. */
  ghost predicate LeasesKept(a: Db, b: Db) {
    (a.tasks == b.tasks && a.tokens == b.tokens)
    || forall t :: t in b.tasks && b.tasks[t].lease.Some? ==>
         var lease := b.tasks[t].lease.value;
         (lease.token !in a.tokens && lease.token in b.tokens && b.tokens[lease.token] == t)
         || (t in a.tasks && a.tasks[t].lease.Some? && SameLease(a.tasks[t].lease.value, lease, a.now))
  }

  /** Locks: a lock's token is new and names its task, or it was the lock's token before. */
  ghost predicate LocksKept(a: Db, b: Db) {
    (a.instances == b.instances && a.tokens == b.tokens)
    || forall i :: i in b.instances && b.instances[i].lock.Some? ==>
         var lock := b.instances[i].lock.value;
         (lock.token !in a.tokens && lock.token in b.tokens && b.tokens[lock.token] == lock.task
          && lock.task in b.tasks && b.tasks[lock.task].instance == i)
         || (i in a.instances && a.instances[i].lock.Some?
             && a.instances[i].lock.value.token == lock.token && a.instances[i].lock.value.task == lock.task)
  }

  ghost predicate TokensGrow(a: map<Token, TaskId>, b: map<Token, TaskId>) {
    a == b || forall k :: k in a ==> (k in b && a[k] == b[k])
  }

  /** The resize of a change, and the resize back, are tasks of its instance; no other task names a change. */
  predicate TaskLinked(db: Db, t: TaskId)
    requires t in db.tasks
  {
    var row := db.tasks[t];
    if row.change.None? then !row.action.Resize? && !row.action.CompensateResize?
    else
      row.change.value in db.changes
      && var change := db.changes[row.change.value];
         change.instance == row.instance
         && ((row.action.Resize? && row.resources == change.target && change.task == t
              && row.instance in db.instances && row.generation <= db.instances[row.instance].generation)
             || (row.action.CompensateResize? && row.resources == change.source))
  }

  /** A resize carries at least the generation its instance had, or started with. */
  predicate Stamped(a: Db, row: Task) {
    var floor := if row.instance in a.instances then a.instances[row.instance].generation else 1;
    row.action.Resize? ==> floor <= row.generation
  }

  /** New tasks are linked to their change. */
  ghost predicate LinksKept(a: Db, b: Db) {
    a.tasks == b.tasks || forall t :: t in b.tasks && t !in a.tasks ==> TaskLinked(b, t) && Stamped(a, b.tasks[t])
  }

  /** Rows stay, their identity stays, generations, tokens and the clock only grow. */
  ghost predicate Evolves(a: Db, b: Db) {
    && a.now <= b.now
    && TasksEvolve(a.tasks, b.tasks)
    && InstancesEvolve(a.instances, b.instances)
    && ChangesEvolve(a.changes, b.changes)
    && OrdersEvolve(a.orders, b.orders)
    && NodesEvolve(a.nodes, b.nodes)
    && a.wallets.Keys <= b.wallets.Keys
    && a.businessKeys <= b.businessKeys
    && TokensGrow(a.tokens, b.tokens)
    && StatusesKept(a.tasks, b.tasks)
    && LeasesKept(a, b)
    && LocksKept(a, b)
    && LinksKept(a, b)
  }

  /** An evolution that hands out no token and brings no sidelined work back. */
  ghost predicate EvolvesQuietly(a: Db, b: Db) {
    Evolves(a, b) && a.tokens == b.tokens && SidelinedKept(a, b)
  }

  lemma EvolvesReflexive(a: Db)
    ensures Evolves(a, a)
  {
  }

  lemma TokensTransitive(a: Db, b: Db, c: Db)
    requires LeasesKept(a, b) && LocksKept(a, b) && LeasesKept(b, c) && LocksKept(b, c)
    requires TokensGrow(a.tokens, b.tokens) && TokensGrow(b.tokens, c.tokens)
    requires TasksEvolve(b.tasks, c.tasks) && a.now <= b.now
    ensures LeasesKept(a, c) && LocksKept(a, c)
  {
  }

  lemma LinkedStays(a: Db, b: Db, t: TaskId)
    requires t in a.tasks && TaskLinked(a, t) && TasksEvolve(a.tasks, b.tasks) && ChangesEvolve(a.changes, b.changes)
    requires InstancesEvolve(a.instances, b.instances)
    ensures t in b.tasks && TaskLinked(b, t)
  {
    assert SameTaskFacts(a.tasks[t], b.tasks[t]);
    if a.tasks[t].change.Some? {
      var c := a.tasks[t].change.value;
      assert SameChangeFacts(a.changes[c], b.changes[c]);
    }
  }

  lemma LinksTransitive(a: Db, b: Db, c: Db)
    requires LinksKept(a, b) && LinksKept(b, c) && TasksEvolve(b.tasks, c.tasks) && ChangesEvolve(b.changes, c.changes)
    requires InstancesEvolve(a.instances, b.instances) && InstancesEvolve(b.instances, c.instances)
    ensures LinksKept(a, c)
  {
    forall t | t in c.tasks && t !in a.tasks ensures TaskLinked(c, t) && Stamped(a, c.tasks[t]) {
      if t in b.tasks {
        LinkedStays(b, c, t);
      }
    }
  }

  lemma EvolvesTransitive(a: Db, b: Db, c: Db)
    requires Evolves(a, b) && Evolves(b, c)
    ensures Evolves(a, c)
  {
    hide LeasesKept, LocksKept, LinksKept;
    TokensTransitive(a, b, c);
    LinksTransitive(a, b, c);
  }

  lemma QuietlyTransitive(a: Db, b: Db, c: Db)
    requires EvolvesQuietly(a, b) && EvolvesQuietly(b, c)
    ensures EvolvesQuietly(a, c)
  {
    EvolvesTransitive(a, b, c);
    hide Evolves;
  }

  // ---------- what only moves the queue ----------

  predicate SameLife(x: Instance, y: Instance) {
    x.status == y.status && x.expiresAt == y.expiresAt && x.destroyAt == y.destroyAt && x.reason == y.reason
    && x.destroyedAt == y.destroyedAt && x.purgeAt == y.purgeAt
  }

  /** No lifecycle column of any instance changes. */
  ghost predicate LifeKept(a: Db, b: Db) {
    a.instances == b.instances
    || (a.instances.Keys == b.instances.Keys
        && forall i :: i in a.instances ==> SameLife(a.instances[i], b.instances[i]))
  }

  ghost predicate SameMoneyRows(a: Db, b: Db) {
    a.wallets == b.wallets && a.ledger == b.ledger && a.businessKeys == b.businessKeys && a.orders == b.orders
    && a.changes == b.changes
  }

  /** A step of the queue: neither money nor the lifecycle is touched. */
  ghost predicate QueueOnly(a: Db, b: Db) {
    EvolvesQuietly(a, b) && LifeKept(a, b) && SameMoneyRows(a, b)
  }

  lemma QueueOnlyTransitive(a: Db, b: Db, c: Db)
    requires QueueOnly(a, b) && QueueOnly(b, c)
    ensures QueueOnly(a, c)
  {
    hide Evolves;
    QuietlyTransitive(a, b, c);
  }

  /** A step of the saga or the ledger: the lifecycle is not touched. */
  ghost predicate BooksOnly(a: Db, b: Db) {
    EvolvesQuietly(a, b) && LifeKept(a, b)
  }

  lemma BooksOnlyTransitive(a: Db, b: Db, c: Db)
    requires BooksOnly(a, b) && BooksOnly(b, c)
    ensures BooksOnly(a, c)
  {
    hide Evolves;
    QuietlyTransitive(a, b, c);
  }
}
