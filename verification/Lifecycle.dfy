/**
 Instance lifecycle: status moves, deferred destruction, retention.

 Status is written in two ways. Most callers go through the conditional transition
 (`RuntimeMove`, `ExpireInstance`, `PlanDestroy`, `CommitCancel`, and the renewal and refund
 transactions elsewhere); destroy and purge executions write it directly, behind the fence.
 */
module Lifecycle {
  import opened Wrappers
  import opened Billing
  import opened Schema
  import opened Evolution
  import opened TaskQueue

  // ---------- where an instance runs ----------

  predicate SelfHosted(db: Db, i: InstanceId) {
    i in db.instances && db.instances[i].node in db.nodes && db.nodes[db.instances[i].node].selfHosted
  }

  predicate OnPlatform(db: Db, i: InstanceId) {
    i in db.instances && db.instances[i].node in db.nodes && !db.nodes[db.instances[i].node].selfHosted
  }

  /** The moves of state synchronisation, failed deployments and retries, always conditional on `from`. */
  predicate RoutedMove(from: Status, to: Status) {
    from == to || (from == Deploying && (to == Running || to == DeploymentFailed))
    || (from == DeploymentFailed && to == Deploying) || (from == Running && to == Stopped)
    || (from == Stopped && to == Running)
  }

  function RuntimeMove(db: Db, i: InstanceId, from: Status, to: Status, runtime: Runtime): (after: Db)
    ensures EvolvesQuietly(db, after) && SameMoneyRows(db, after)
  {
    if i !in db.instances || db.instances[i].status != from || !RoutedMove(from, to) then db
    else PutInstance(db, i, db.instances[i].(status := to, runtime := runtime))
  }

  // ---------- what a worker writes once the Agent answered ----------

  predicate Reports(a: Action) {
    a.Create? || a.RetryDeploy? || a.Start? || a.Stop? || a.Restart? || a.Update? || a.Reinstall?
  }

  /** `seen` is the status the execution read before its first fence check. */
  function ReportedFrom(a: Action, seen: Status): Status {
    if a.Create? || a.RetryDeploy? then Deploying else if a.Update? then Running else seen
  }

  /** Start, stop and restart leave a planned destruction alone; a reinstall does not. */
  function ReportedTo(a: Action, seen: Status): Status {
    if (a.Start? || a.Stop? || a.Restart?) && seen == DestroyScheduled then seen
    else if a.Stop? then Stopped
    else Running
  }

  predicate MayReport(a: Action, seen: Status) {
    CanTransition(ReportedFrom(a, seen), ReportedTo(a, seen))
  }

  predicate CanReport(db: Db, i: InstanceId, a: Action, seen: Status) {
    i in db.instances && db.instances[i].status == ReportedFrom(a, seen) && MayReport(a, seen)
  }

  function ReportRuntime(db: Db, i: InstanceId, a: Action, seen: Status): (after: Db)
    ensures EvolvesQuietly(db, after) && SameMoneyRows(db, after)
  {
    hide MayReport, ReportedTo, Evolves;
    if !CanReport(db, i, a, seen) then NoChange(db)
    else SetStatus(db, i, ReportedTo(a, seen), if a.Stop? then RuntimeStopped else RuntimeRunning)
  }

  // ---------- reconciling an operation whose answer was lost ----------

  predicate Reconcilable(a: Action) {
    a.Create? || a.RetryDeploy? || a.Start? || a.Stop? || a.Restart?
  }

  /** The status an observed container implies; only deployments ignore a planned destruction. */
  function ReconciledStatus(a: Action, lifecycle: Status): Status {
    if a.Create? || a.RetryDeploy? then Running
    else if lifecycle == DestroyScheduled then lifecycle
    else if a.Stop? then Stopped
    else Running
  }

  /** The reconciler's query: reviewed work of the simple kinds, on self-hosted nodes only. */
  predicate InDoubt(db: Db, t: TaskId) {
    t in db.tasks && db.tasks[t].status == TaskReview && Reconcilable(db.tasks[t].action)
    && SelfHosted(db, db.tasks[t].instance)
  }

  predicate CanFinalize(db: Db, t: TaskId, lifecycle: Status) {
    t in db.tasks && Reconcilable(db.tasks[t].action) && db.tasks[t].instance in db.instances
    && db.instances[db.tasks[t].instance].status == lifecycle
    && CanTransition(lifecycle, ReconciledStatus(db.tasks[t].action, lifecycle))
  }

  /** `lifecycle` was read with the task, before the Agent was asked; the task's status is not looked at again. */
  function FinalizeReconciled(db: Db, t: TaskId, lifecycle: Status): (after: Db)
    ensures EvolvesQuietly(db, after) && SameMoneyRows(db, after)
  {
    hide CanTransition, Evolves;
    if !CanFinalize(db, t, lifecycle) then NoChange(db)
    else
      var row := db.tasks[t];
      SetStatus(db, row.instance, ReconciledStatus(row.action, lifecycle),
                if row.action.Stop? then RuntimeStopped else RuntimeRunning)
  }

  function SetStatus(db: Db, i: InstanceId, status: Status, runtime: Runtime): (after: Db)
    requires i in db.instances
    ensures EvolvesQuietly(db, after) && SameMoneyRows(db, after)
  {
    PutInstance(db, i, db.instances[i].(status := status, runtime := runtime))
  }

  /** The expiry loop's query. Self-hosted instances have no end of service. */
  predicate ServiceEnded(db: Db, i: InstanceId) {
    OnPlatform(db, i) && Serving(db.instances[i].status) && db.instances[i].expiresAt < db.now
  }

  /**
   The expiry loop's transition. The end of service and the status were read earlier; only that the
   instance serves is checked again, and the status that was read becomes the runtime.
   */
  function ExpireInstance(db: Db, i: InstanceId, seen: Status): (after: Db)
    ensures EvolvesQuietly(db, after) && SameMoneyRows(db, after)
  {
    if i !in db.instances || !Serving(db.instances[i].status) then db
    else
      var row := db.instances[i];
      var runtime := if seen == Running then RuntimeRunning else RuntimeStopped;
      PutInstance(db, i, row.(status := DestroyScheduled, runtime := runtime, reason := Some(Expired),
                              destroyAt := Some(row.expiresAt + GRACE), purgeAt := None))
  }

  function CoercedRuntime(r: Runtime): Runtime {
    if r.RuntimeOther? then RuntimeStopped else r
  }

  function PlannedRow(row: Instance, seen: Instance, now: Instant): (r: Instance)
    ensures r.owner == row.owner && r.node == row.node && r.generation == row.generation && r.lock == row.lock
  {
    row.(status := DestroyScheduled, runtime := CoercedRuntime(seen.runtime),
         reason := Some(if seen.status == DeploymentFailed then FailedDeployment else Manual),
         destroyAt := Some(now + GRACE), destroyedAt := None, purgeAt := None)
  }

  predicate CanPlanDestroy(row: Instance, seen: Instance) {
    (Serving(seen.status) && Serving(row.status))
    || (seen.status == DeploymentFailed && (Serving(row.status) || row.status == DeploymentFailed))
  }

  /** `seen` is the request's earlier copy of the row. */
  function PlanDestroy(db: Db, i: InstanceId, seen: Instance): (after: Db)
    ensures EvolvesQuietly(db, after) && SameMoneyRows(db, after)
  {
    hide PlannedRow, CanPlanDestroy;
    if i !in db.instances || !CanPlanDestroy(db.instances[i], seen) then db
    else PutInstance(db, i, PlannedRow(db.instances[i], seen, db.now))
  }

  // ---------- cancelling a planned destruction ----------

  /** Pending or running work that blocks a user action on the instance. */
  predicate ActiveLifecycle(db: Db, t: TaskId, i: InstanceId)
    requires t in db.tasks
  {
    var row := db.tasks[t];
    row.instance == i && (row.status == TaskPending || row.status == TaskRunning)
    && !(row.status == TaskPending && (row.action.Destroy? || row.action.Purge?) && db.now < row.runAfter)
    && !(row.status == TaskPending && row.action.CompensateResize?)
  }

  /** The checks of the cancel request, made on rows it read before its transaction. */
  predicate MayCancelDestroy(db: Db, i: InstanceId) {
    i in db.instances
    && (forall t :: t in db.tasks ==> !ActiveLifecycle(db, t, i))
    && db.instances[i].status == DestroyScheduled
    && (db.instances[i].reason == Some(Manual) || db.instances[i].reason == Some(FailedDeployment))
  }

  predicate Deferred(db: Db, t: TaskId, i: InstanceId)
    requires t in db.tasks
  {
    db.tasks[t].instance == i && db.tasks[t].action.Destroy? && db.tasks[t].status == TaskPending
    && db.now < db.tasks[t].runAfter
  }

  function DeferredDestroys(db: Db, i: InstanceId): set<TaskId> {
    set t | t in db.tasks && Deferred(db, t, i)
  }

  predicate CanCommitCancel(db: Db, i: InstanceId) {
    i in db.instances && db.instances[i].status == DestroyScheduled && |DeferredDestroys(db, i)| == 1
  }

  /** The cancel transaction: conditional on the status and on one deferred task, not on the reason. */
  function CommitCancel(db: Db, i: InstanceId, seen: Runtime): (after: Db)
    ensures EvolvesQuietly(db, after) && SameMoneyRows(db, after)
  {
    if !CanCommitCancel(db, i) then db
    else
      var r := CoercedRuntime(seen);
      var row := db.instances[i].(status := if r.RuntimeRunning? then Running else Stopped, runtime := r,
                                  destroyAt := None, reason := None);
      db.(instances := db.instances[i := row],
          tasks := map t | t in db.tasks ::
            if Deferred(db, t, i) then db.tasks[t].(status := TaskCancelled, lease := None) else db.tasks[t])
  }

  /** Destroy-now gives up the refund, but only of a plan the user made. */
  function WaiveRefund(db: Db, i: InstanceId): (after: Db)
    ensures EvolvesQuietly(db, after) && SameMoneyRows(db, after)
  {
    if i in db.instances && db.instances[i].status == DestroyScheduled && db.instances[i].reason == Some(Manual)
    then PutInstance(db, i, db.instances[i].(reason := Some(UserNoRefund))) else db
  }

  /** INSERT IGNORE of a destroy or purge task; `at` is the plan's time as the caller last read it. */
  function ScheduleLifecycleTask(db: Db, t: TaskId, i: InstanceId, purge: bool, at: Instant,
                                 runAfter: Instant): (after: Db)
    ensures EvolvesQuietly(db, after) && SameMoneyRows(db, after)
  {
    hide Evolves;
    var key := if purge then PurgeKey(i, at) else DestroyKey(i, at);
    if i !in db.instances || !CanInsertTask(db, t, key) then NoChange(db)
    else NewTask(db, t, Task(i, if purge then Purge else Destroy, key, TaskPending, 0, runAfter, None, 0, None,
                             db.instances[i].resources))
  }

  // ---------- destroy and purge executions ----------

  /** The plan a destroy execution was built for, if it is still the one in force. */
  function PlanInForce(db: Db, tk: Ticket): Option<Instant> {
    if tk.row.instance in db.instances
       && db.instances[tk.row.instance].status == DestroyScheduled
       && db.instances[tk.row.instance].destroyAt.Some?
       && tk.row.key == DestroyKey(tk.row.instance, db.instances[tk.row.instance].destroyAt.value)
    then db.instances[tk.row.instance].destroyAt else None
  }

  predicate CanWriteDestroyed(db: Db, tk: Ticket, plan: Instant) {
    OwnsLease(db, tk) && HoldsLock(db, tk)
    && var row := db.instances[tk.row.instance];
       row.status == DestroyScheduled && row.destroyAt == Some(plan)
  }

  function WriteDestroyed(db: Db, tk: Ticket, plan: Instant): (after: Db)
    ensures EvolvesQuietly(db, after) && SameMoneyRows(db, after)
  {
    if !CanWriteDestroyed(db, tk, plan) then db
    else
      var i := tk.row.instance;
      PutInstance(db, i, db.instances[i].(status := Destroyed, runtime := RuntimeStopped,
                                          destroyedAt := Some(db.now), purgeAt := Some(db.now + PURGE_DELAY)))
  }

  predicate LiveOrder(db: Db, o: OrderId, i: InstanceId)
    requires o in db.orders
  {
    db.orders[o].instance == i && db.orders[o].status == OrderActive && db.now < db.orders[o].end
  }

  predicate PurgeDue(db: Db, i: InstanceId) {
    i in db.instances && db.instances[i].status == Destroyed
    && db.instances[i].purgeAt.Some? && db.instances[i].purgeAt.value <= db.now
    && forall o :: o in db.orders ==> !LiveOrder(db, o, i)
  }

  predicate CanWritePurged(db: Db, tk: Ticket) {
    OwnsLease(db, tk) && HoldsLock(db, tk) && PurgeDue(db, tk.row.instance)
  }

  function WritePurged(db: Db, tk: Ticket): (after: Db)
    ensures EvolvesQuietly(db, after) && SameMoneyRows(db, after)
  {
    if !CanWritePurged(db, tk) then db
    else PutInstance(db, tk.row.instance, db.instances[tk.row.instance].(status := Purged))
  }
}
