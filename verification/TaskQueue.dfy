/**
 The task lease protocol, one function per SQL statement or transaction.

 A function returns the database after the statement; a conditional update whose row
 does not match leaves it unchanged. A `Ticket` is the copy of a task row that a worker
 keeps in memory from the moment it read the row.
 */
module TaskQueue {
  import opened Wrappers
  import opened Schema
  import opened Evolution

  datatype Ticket = Ticket(id: TaskId, row: Task)

  datatype Outcome = Succeeds | Fails | CommandCancelled

  // ---------- who may act ----------

  /** The ticket's token is still the row's token, and the lease has not run out. */
  predicate OwnsLease(db: Db, tk: Ticket) {
    tk.id in db.tasks && tk.row.lease.Some?
    && var row := db.tasks[tk.id];
       row.status == TaskRunning && row.lease.Some?
       && row.lease.value.token == tk.row.lease.value.token && db.now < row.lease.value.expires
  }

  predicate HasLockToken(db: Db, tk: Ticket) {
    tk.row.instance in db.instances && tk.row.lease.Some?
    && var lock := db.instances[tk.row.instance].lock;
       lock.Some? && lock.value.task == tk.id && lock.value.token == tk.row.lease.value.token
  }

  predicate HoldsLock(db: Db, tk: Ticket) {
    HasLockToken(db, tk) && db.now < db.instances[tk.row.instance].lock.value.expires
  }

  predicate NodeUsable(db: Db, n: NodeId) {
    n in db.nodes && db.nodes[n].enabled && (db.nodes[n].selfHosted ==> db.nodes[n].deviceEnabled)
  }

  /** The fence read immediately before a request leaves for the Agent. */
  predicate MayCallAgent(db: Db, tk: Ticket, expected: set<Status>) {
    OwnsLease(db, tk) && HoldsLock(db, tk)
    && var i := db.instances[tk.row.instance];
       (db.tasks[tk.id].generation == 0 || db.tasks[tk.id].generation == i.generation)
       && NodeUsable(db, i.node) && i.status in expected
  }

  predicate LockFree(db: Db, i: InstanceId)
    requires i in db.instances
  {
    db.instances[i].lock.None? || db.instances[i].lock.value.expires <= db.now
  }

  /** A conditional update that matched no row. */
  function NoChange(db: Db): (after: Db)
    ensures QueueOnly(db, after)
  {
    db
  }

  // ---------- the clock and the nodes ----------

  function Advance(db: Db, elapsed: nat): (after: Db)
    ensures QueueOnly(db, after)
  {
    db.(now := db.now + elapsed)
  }

  function RegisterNode(db: Db, n: NodeId, selfHosted: bool): (after: Db)
    ensures QueueOnly(db, after)
  {
    if n in db.nodes then db else db.(nodes := db.nodes[n := Node(true, selfHosted, true)])
  }

  /** An administrator's save: a new platform node, or only the switch of the node with this id. */
  function SwitchNode(db: Db, n: NodeId, enabled: bool): (after: Db)
    ensures QueueOnly(db, after)
  {
    db.(nodes := db.nodes[n := if n in db.nodes then db.nodes[n].(enabled := enabled) else Node(enabled, false, true)])
  }

  // ---------- claim, renew, recover ----------

  predicate CanClaim(db: Db, t: TaskId, token: Token) {
    t in db.tasks && token !in db.tokens && db.tasks[t].status == TaskPending
    && db.tasks[t].instance in db.instances && LockFree(db, db.tasks[t].instance)
  }

  function ClaimTask(db: Db, t: TaskId, token: Token): (after: Db)
    ensures Evolves(db, after) && SidelinedKept(db, after) && LifeKept(db, after) && SameMoneyRows(db, after)
  {
    if !CanClaim(db, t, token) then db
    else
      var row := db.tasks[t];
      var claimed := row.(status := TaskRunning, attempts := row.attempts + 1,
                          lease := Some(Lease(token, db.now + LEASE)));
      var instance := db.instances[row.instance].(lock := Some(Lock(t, token, db.now + LEASE)));
      db.(tasks := db.tasks[t := claimed], instances := db.instances[row.instance := instance],
          tokens := db.tokens[token := t])
  }

  /** First statement of the renew loop. */
  function RenewTaskLease(db: Db, tk: Ticket): (after: Db)
    ensures QueueOnly(db, after)
  {
    if !OwnsLease(db, tk) then db
    else PutTask(db, tk.id, db.tasks[tk.id].(lease := Some(Lease(tk.row.lease.value.token, db.now + LEASE))))
  }

  /** Second statement of the renew loop: it does not look at the lock's expiry. */
  function RenewInstanceLock(db: Db, tk: Ticket): (after: Db)
    ensures QueueOnly(db, after)
  {
    if !HasLockToken(db, tk) then db
    else
      var i := tk.row.instance;
      PutInstance(db, i, db.instances[i].(lock := Some(Lock(tk.id, tk.row.lease.value.token, db.now + LEASE))))
  }

  predicate LeaseExpired(db: Db, t: TaskId) {
    t in db.tasks && db.tasks[t].status == TaskRunning && db.tasks[t].lease.Some?
    && db.tasks[t].lease.value.expires <= db.now
  }

  /** `seen` is the instance status read just before the update. */
  function RecoveredStatus(a: Action, seen: Status): TaskStatus {
    if a.CompensateResize? then TaskPending
    else if Dangerous(a) then TaskReview
    else if a.Create? && seen == Deploying then TaskPending
    else if a.Start? && (seen == Stopped || seen == DestroyScheduled) then TaskPending
    else TaskReview
  }

  function RecoverExpiredLease(db: Db, t: TaskId, seen: Status): (after: Db)
    ensures QueueOnly(db, after)
  {
    if !LeaseExpired(db, t) then db
    else
      var row := db.tasks[t];
      PutTask(db, t, row.(status := RecoveredStatus(row.action, seen), runAfter := db.now, lease := None))
  }

  // ---------- finish ----------

  function FinishedStatus(row: Task, outcome: Outcome): TaskStatus {
    match outcome
    case Succeeds => TaskDone
    case CommandCancelled => TaskReview
    case Fails =>
      if row.attempts >= MAX_ATTEMPTS && row.action.Resize? then TaskReview
      else if row.attempts >= MAX_ATTEMPTS && !row.action.CompensateResize? then TaskFailed
      else TaskPending
  }

  function FinishTask(db: Db, tk: Ticket, outcome: Outcome): (after: Db)
    ensures QueueOnly(db, after)
  {
    if !OwnsLease(db, tk) then db
    else
      var next := FinishedStatus(tk.row, outcome);
      var row := db.tasks[tk.id].(status := next, lease := None);
      var delayed := row.(runAfter := db.now + tk.row.attempts * tk.row.attempts * MINUTE);
      PutTask(db, tk.id, if next == TaskPending then delayed else row)
  }

  function ReleaseInstanceLock(db: Db, tk: Ticket): (after: Db)
    ensures QueueOnly(db, after)
  {
    if !HasLockToken(db, tk) then db
    else PutInstance(db, tk.row.instance, db.instances[tk.row.instance].(lock := None))
  }

  // ---------- administrators, users, revocation ----------

  /** The shape shared by the single-row status updates below. */
  function MoveTask(db: Db, t: TaskId, from: set<TaskStatus>, to: TaskStatus): (after: Db)
    requires !to.TaskRunning? && !to.TaskPending? && forall s :: s in from ==> !Ended(s)
    ensures QueueOnly(db, after)
  {
    if t !in db.tasks || db.tasks[t].status !in from then db
    else PutTask(db, t, db.tasks[t].(status := to, lease := None))
  }

  function QuarantineFailed(db: Db, t: TaskId): (after: Db)
    ensures QueueOnly(db, after)
  {
    if t in db.tasks && Dangerous(db.tasks[t].action) && !db.tasks[t].action.Resize?
    then MoveTask(db, t, {TaskFailed}, TaskReview) else db
  }

  /** A dangerous failure is moved to review; any other gets a fresh retry budget. */
  function RetryFailed(db: Db, t: TaskId): (after: Db)
    ensures QueueOnly(db, after)
  {
    if t !in db.tasks || db.tasks[t].status != TaskFailed then db
    else if Dangerous(db.tasks[t].action) then MoveTask(db, t, {TaskFailed}, TaskReview)
    else PutTask(db, t, db.tasks[t].(status := TaskPending, attempts := 0, runAfter := db.now, lease := None))
  }

  function ResumeReview(db: Db, t: TaskId): (after: Db)
    ensures Evolves(db, after) && after.tokens == db.tokens && LifeKept(db, after) && SameMoneyRows(db, after)
  {
    if t !in db.tasks || db.tasks[t].status != TaskReview then db
    else PutTask(db, t, db.tasks[t].(status := TaskPending, runAfter := db.now, lease := None))
  }

  function DiscardReview(db: Db, t: TaskId): (after: Db)
    ensures QueueOnly(db, after)
  {
    if t !in db.tasks || db.tasks[t].status != TaskReview then db
    else PutTask(db, t, db.tasks[t].(status := TaskFailed))
  }

  function DiscardForGood(db: Db, t: TaskId): (after: Db)
    ensures QueueOnly(db, after)
  {
    MoveTask(db, t, {TaskFailed, TaskReview}, TaskDiscarded)
  }

  /** A reconciled operation's task is done. */
  function CloseReconciled(db: Db, t: TaskId): (after: Db)
    ensures QueueOnly(db, after)
  {
    MoveTask(db, t, {TaskReview}, TaskDone)
  }

  predicate UserCancelable(a: Action) {
    a.Start? || a.Stop? || a.Update? || a.Restart? || a.Reinstall? || a.RetryDeploy?
  }

  function CancelQueued(db: Db, t: TaskId): (after: Db)
    ensures QueueOnly(db, after)
  {
    if t in db.tasks && UserCancelable(db.tasks[t].action) then MoveTask(db, t, {TaskPending}, TaskCancelled) else db
  }

  function ClearedLock(row: Instance, t: TaskId): (r: Instance)
    ensures SameLife(row, r) && r.owner == row.owner && r.node == row.node && r.generation == row.generation
    ensures r.lock.Some? ==> r.lock == row.lock
  {
    if row.lock.Some? && row.lock.value.task == t then row.(lock := None) else row
  }

  /** The second statement of resume and discard: whatever lock names the task is cleared. */
  function ClearLocksOf(db: Db, t: TaskId): (after: Db)
    ensures QueueOnly(db, after)
  {
    hide ClearedLock;
    db.(instances := map i | i in db.instances :: ClearedLock(db.instances[i], t))
  }

  function RevokedTask(row: Task): (r: Task)
    ensures SameTaskFacts(row, r) && (r.lease.Some? ==> r.lease == row.lease)
    ensures LeaseMatchesStatus(row) ==> LeaseMatchesStatus(r)
    ensures (Ended(row.status) ==> r.status == row.status) && forall now :: Sidelined(row, now) ==> Sidelined(r, now)
  {
    match row.status
    case TaskPending => row.(status := TaskCancelled, lease := None)
    case TaskRunning => row.(status := TaskReview, lease := None)
    case _ => row
  }

  predicate OnNode(db: Db, i: InstanceId, n: NodeId) {
    i in db.instances && db.instances[i].node == n
  }

  function RevokedOn(db: Db, row: Task, n: NodeId): (r: Task)
    ensures SameTaskFacts(row, r) && (r.lease.Some? ==> r.lease == row.lease)
    ensures LeaseMatchesStatus(row) ==> LeaseMatchesStatus(r)
    ensures (Ended(row.status) ==> r.status == row.status) && forall now :: Sidelined(row, now) ==> Sidelined(r, now)
  {
    if OnNode(db, row.instance, n) then RevokedTask(row) else row
  }

  function RevokeTasks(db: Db, n: NodeId): (after: Db)
    ensures QueueOnly(db, after)
  {
    hide RevokedOn, LeaseMatchesStatus, Sidelined, TaskLinked, Stamped;
    db.(tasks := map t | t in db.tasks :: RevokedOn(db, db.tasks[t], n))
  }

  function RevokedInstance(row: Instance, isolates: bool): (r: Instance)
    ensures r.owner == row.owner && r.node == row.node && r.generation == row.generation
    ensures r.lock == (if isolates then None else row.lock) && SameLife(row, r)
  {
    row.(runtime := if row.status in {Deploying, Running, Stopped, DestroyScheduled} then RuntimeOther else row.runtime,
         lock := if isolates then None else row.lock)
  }

  function RevokedAt(row: Instance, n: NodeId, isolates: bool): (r: Instance)
    ensures r.owner == row.owner && r.node == row.node && r.generation == row.generation && SameLife(row, r)
    ensures r.lock.Some? ==> r.lock == row.lock
  {
    if row.node == n then RevokedInstance(row, isolates) else row
  }

  function RevokeInstances(db: Db, n: NodeId, isolates: bool): (after: Db)
    ensures QueueOnly(db, after)
  {
    hide RevokedAt, SameLife;
    db.(instances := map i | i in db.instances :: RevokedAt(db.instances[i], n, isolates))
  }

  predicate RunsWork(db: Db, n: NodeId) {
    exists t :: t in db.tasks && OnNode(db, db.tasks[t].instance, n) && db.tasks[t].status == TaskRunning
  }

  function DisableNode(db: Db, n: NodeId): (after: Db)
    requires n in db.nodes && db.nodes[n].selfHosted
    ensures QueueOnly(db, after)
  {
    db.(nodes := db.nodes[n := Node(false, true, false)])
  }

  /** Unbinding a self-hosted node: its queue is cancelled, running work is isolated, its locks are dropped. */
  function RevokeNode(db: Db, n: NodeId): (after: Db)
    ensures QueueOnly(db, after)
  {
    hide Evolves, RevokeTasks, RevokeInstances;
    if n !in db.nodes || !db.nodes[n].selfHosted || !db.nodes[n].enabled then NoChange(db)
    else
      var isolates := RunsWork(db, n);
      var disabled := DisableNode(db, n);
      var queue := RevokeTasks(disabled, n);
      var after := RevokeInstances(queue, n, isolates);
      QueueOnlyTransitive(db, disabled, queue);
      QueueOnlyTransitive(db, queue, after);
      after
  }

  // ---------- new requests ----------

  /** How a request stamps its task: without a generation, with the current one, or after a bump. */
  datatype Stamp = Unstamped | Current | Bumped

  function BumpGeneration(db: Db, i: InstanceId): (after: Db)
    requires i in db.instances
    ensures QueueOnly(db, after)
  {
    PutInstance(db, i, db.instances[i].(generation := db.instances[i].generation + 1))
  }

  function NewTask(db: Db, t: TaskId, row: Task): (after: Db)
    requires CanInsertTask(db, t, row.key) && row.status.TaskPending? && row.lease.None?
    requires TaskLinked(InsertTask(db, t, row), t) && Stamped(db, row)
    ensures QueueOnly(db, after)
  {
    InsertTask(db, t, row)
  }

  /** Start, stop, update, restart, reinstall, retry and host-access requests. */
  function QueueAction(db: Db, t: TaskId, i: InstanceId, a: Action, stamp: Stamp): (after: Db)
    ensures QueueOnly(db, after)
  {
    hide Evolves;
    if i !in db.instances || !CanInsertTask(db, t, RequestKey(t))
        || a in {Create, Destroy, Purge, Resize, CompensateResize} then NoChange(db)
    else
      var stamped := if stamp.Bumped? then BumpGeneration(db, i) else NoChange(db);
      var g := if stamp.Unstamped? then 0 else stamped.instances[i].generation;
      var after := NewTask(stamped, t,
                           Task(i, a, RequestKey(t), TaskPending, 0, db.now, None, g, None, db.instances[i].resources));
      QueueOnlyTransitive(db, stamped, after);
      after
  }
}
