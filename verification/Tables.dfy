/**
 The control plane as it runs: tables that statements and transactions update in place. Every
 method is proved to do exactly what its counterpart over snapshots says, so that what is
 proved about runs of snapshots holds of the tables, and to keep the tables in order: `Valid`.
 */
module Tables {
  import opened Wrappers
  import opened Billing
  import opened Refunds
  import opened Schema
  import opened Evolution
  import opened TaskQueue
  import opened Lifecycle
  import opened Commerce
  import opened PlanChange
  import opened Accounting
  import opened Settlement
  import opened Crediting
  import opened Upkeep
  import World

  class ControlPlane {
    var now: Instant
    var nodes: map<NodeId, Node>
    var instances: map<InstanceId, Instance>
    var tasks: map<TaskId, Task>
    var changes: map<ChangeId, Change>
    var orders: map<OrderId, Order>
    var wallets: map<UserId, int>
    var ledger: seq<Entry>
    var tokens: map<Token, TaskId>
    var taskKeys: set<TaskKey>
    var businessKeys: set<BusinessKey>
    var settlements: set<(InstanceId, OrderId)>

    function Snapshot(): Db
      reads this
    {
      Db(now, nodes, instances, tasks, changes, orders, wallets, ledger, tokens, taskKeys, businessKeys, settlements)
    }

    /** Tokens, generations and links are in order and the books balance. */
    ghost predicate Valid()
      reads this
    {
      TablesOk(Snapshot())
    }

    constructor (start: Instant)
      ensures Valid() && Snapshot() == EmptyDb(start)
    {
      now := start;
      nodes, instances, tasks, changes, orders, wallets := map[], map[], map[], map[], map[], map[];
      ledger, tokens, taskKeys, businessKeys, settlements := [], map[], {}, {}, {};
      new;
      EmptyIsOk(start);
    }

    // ---------- what a statement or transaction asks first ----------

    /** The worker's token is the row's and its lease has not run out. */
    method OwnsRow(tk: Ticket) returns (ok: bool)
      ensures ok <==> OwnsLease(Snapshot(), tk)
    {
      if tk.id !in tasks || tk.row.lease.None? || tasks[tk.id].status != TaskRunning || tasks[tk.id].lease.None? {
        return false;
      }
      var lease := tasks[tk.id].lease.value;
      return lease.token == tk.row.lease.value.token && now < lease.expires;
    }

    method NamesLock(tk: Ticket) returns (ok: bool)
      ensures ok <==> HasLockToken(Snapshot(), tk)
    {
      var i := tk.row.instance;
      if i !in instances || tk.row.lease.None? || instances[i].lock.None? {
        return false;
      }
      return instances[i].lock.value.task == tk.id && instances[i].lock.value.token == tk.row.lease.value.token;
    }

    /** Lease and lock, both in force. */
    method Holds(tk: Ticket) returns (ok: bool)
      ensures ok <==> OwnsLease(Snapshot(), tk) && HoldsLock(Snapshot(), tk)
    {
      hide OwnsLease;
      ok := OwnsRow(tk);
      var named := NamesLock(tk);
      ok := ok && named && now < instances[tk.row.instance].lock.value.expires;
    }

    /** The fence: the last query before a request leaves for the Agent. */
    method Admits(tk: Ticket, expected: set<Status>) returns (ok: bool)
      ensures ok <==> MayCallAgent(Snapshot(), tk, expected)
    {
      var held := Holds(tk);
      if !held {
        return false;
      }
      var i := instances[tk.row.instance];
      if tasks[tk.id].generation != 0 && tasks[tk.id].generation != i.generation {
        return false;
      }
      if i.node !in nodes || !nodes[i.node].enabled || (nodes[i.node].selfHosted && !nodes[i.node].deviceEnabled) {
        return false;
      }
      return i.status in expected;
    }

    method MayPurchase(p: Purchase) returns (ok: bool)
      ensures ok <==> CanPurchase(Snapshot(), p)
    {
      if p.user !in wallets || p.amount < 0 || wallets[p.user] < p.amount || p.end <= now {
        return false;
      }
      if p.node !in nodes || !nodes[p.node].enabled || nodes[p.node].selfHosted {
        return false;
      }
      return p.order !in orders && p.instance !in instances && p.task !in tasks && CreateKey(p.instance) !in taskKeys;
    }

    /** The instance is free, serves or has merely expired, and the wallet covers the price. */
    method MayRenew(r: Renewal) returns (ok: bool)
      ensures ok <==> CanRenew(Snapshot(), r)
    {
      if r.source !in orders || orders[r.source].status !in {OrderActive, OrderExpired} {
        return false;
      }
      var i, user := orders[r.source].instance, orders[r.source].owner;
      if i !in instances || (instances[i].lock.Some? && now < instances[i].lock.value.expires) {
        return false;
      }
      var row := instances[i];
      var lapsed := row.status == DestroyScheduled && row.reason == Some(Expired);
      if row.status !in {Running, Stopped} && !lapsed {
        return false;
      }
      if exists t :: t in tasks && tasks[t].instance == i && tasks[t].status in {TaskPending, TaskRunning}
          && tasks[t].action != HostAccess && !(lapsed && tasks[t].action == Destroy) {
        return false;
      }
      if user !in wallets || r.amount < 0 || wallets[user] < r.amount || r.end <= now || r.end <= row.expiresAt {
        return false;
      }
      return r.order !in orders && r.task !in tasks && RequestKey(r.task) !in taskKeys;
    }

    /** The quote still is what the tables say, nothing else is under way, and the wallet covers the charge. */
    method MayOpen(p: Opening) returns (ok: bool)
      ensures ok <==> CanOpenChange(Snapshot(), p)
    {
      hide Balanced, ItemConfirmed;
      if p.instance !in instances || instances[p.instance].owner != p.owner || p.change in changes {
        return false;
      }
      var row := instances[p.instance];
      if row.status !in {Running, Stopped} || row.node !in nodes || !nodes[row.node].enabled {
        return false;
      }
      if !Balanced(p.quote) || !p.catalogueAgrees || now < p.quote.cutoff || p.quote.charge < 0 {
        return false;
      }
      if exists t :: t in tasks && tasks[t].instance == p.instance && tasks[t].status in {TaskPending, TaskRunning}
          && tasks[t].action != HostAccess {
        return false;
      }
      if p.quote.charge > 0 && (p.owner !in wallets || wallets[p.owner] < p.quote.charge) {
        return false;
      }
      var confirmed := Confirmed(p);
      return confirmed && p.task !in tasks && ResizeKey(p.change) !in taskKeys;
    }

    /** The loop over the quote's items: each is compared with its stored order, and none comes twice. */
    method Confirmed(p: Opening) returns (ok: bool)
      ensures ok <==>
                && (forall k :: 0 <= k < |p.quote.items| ==> ItemConfirmed(Snapshot(), p, p.quote.items[k]))
                && (forall j, k :: 0 <= j < k < |p.quote.items| ==> p.quote.items[j].order != p.quote.items[k].order)
    {
      var items := p.quote.items;
      for k := 0 to |items|
        invariant forall j :: 0 <= j < k ==> ItemConfirmed(Snapshot(), p, items[j])
        invariant forall i, j :: 0 <= i < j < k ==> items[i].order != items[j].order
      {
        var agrees := Agrees(p, items[k]);
        if !agrees || exists j :: 0 <= j < k && items[j].order == items[k].order {
          return false;
        }
      }
      return true;
    }

    method Agrees(p: Opening, item: QuoteItem) returns (ok: bool)
      ensures ok <==> ItemConfirmed(Snapshot(), p, item)
    {
      if item.order !in orders {
        return false;
      }
      var o := orders[item.order];
      if o.owner != p.owner || o.instance != p.instance || o.status != OrderActive {
        return false;
      }
      if item.paid != o.amount || item.sourceStart != o.start || item.sourceEnd != o.end {
        return false;
      }
      var start := if o.start < p.quote.cutoff then p.quote.cutoff else o.start;
      return item.refund == PlanChangeOrderRefundFen(o.amount, o.start, o.end, p.quote.cutoff)
             && item.charge == ProrateMonthlyFen(p.rate, start, o.end) && item.start == start && item.end == o.end;
    }

    method MayCancel(c: ChangeId) returns (ok: bool)
      ensures ok <==> CanRequestCancel(Snapshot(), c)
    {
      if c !in changes || changes[c].instance !in instances {
        return false;
      }
      if changes[c].saga == SagaCancelled || changes[c].status == ChangeFailed {
        return false;
      }
      return changes[c].saga != Settled && changes[c].status != ChangeSucceeded && changes[c].saga != Compensating;
    }

    method AtSource(c: ChangeId) returns (ok: bool)
      requires c in changes
      ensures ok <==> ObservedAtSource(Snapshot(), c)
    {
      if changes[c].observed != Some(changes[c].source) {
        return false;
      }
      return !exists t :: t in tasks && tasks[t].instance == changes[c].instance && tasks[t].action == Action.Resize
                          && tasks[t].status in {TaskPending, TaskRunning};
    }

    method MayCompensate(tk: Ticket) returns (ok: bool)
      ensures ok <==> tk.row.change.Some? && CanCompensate(Snapshot(), tk, tk.row.change.value)
    {
      if tk.row.change.None? || tk.row.change.value !in changes || tk.row.instance !in instances {
        return false;
      }
      var change := changes[tk.row.change.value];
      if change.instance != tk.row.instance || change.saga != Compensating {
        return false;
      }
      if tk.row.generation > 0 && instances[tk.row.instance].generation != tk.row.generation {
        return false;
      }
      return change.reservation > 0 ==> change.owner in wallets;
    }

    /** A ticket with a token must hold lease and lock; in any case the instance must serve. */
    method MaySettle(tk: Ticket) returns (ok: bool)
      requires tk.row.change.Some? && tk.row.change.value in changes
      ensures ok <==> CanSettle(Snapshot(), tk)
    {
      hide OwnsLease;
      if tk.row.lease.Some? {
        var held := Holds(tk);
        if !held {
          return false;
        }
      }
      if tk.row.instance !in instances || instances[tk.row.instance].status !in {Running, Stopped} {
        return false;
      }
      return changes[tk.row.change.value].owner in wallets;
    }

    /** A request that found the instance serving, or a failed deployment, and that still finds it so. */
    method MayPlan(i: InstanceId, seen: Instance) returns (ok: bool)
      ensures ok <==> i in instances && CanPlanDestroy(instances[i], seen)
    {
      if i !in instances {
        return false;
      }
      var status := instances[i].status;
      if seen.status == DeploymentFailed {
        return status in {Running, Stopped, DeploymentFailed};
      }
      return seen.status in {Running, Stopped} && status in {Running, Stopped};
    }

    /** Exactly one queued destroy task that is not due yet. */
    method OneDeferred(i: InstanceId) returns (ok: bool)
      ensures ok <==>
                i in instances && instances[i].status == DestroyScheduled && |DeferredDestroys(Snapshot(), i)| == 1
    {
      if i !in instances || instances[i].status != DestroyScheduled {
        return false;
      }
      var found := set t | t in tasks && tasks[t].instance == i && tasks[t].action == Destroy
                           && tasks[t].status == TaskPending && now < tasks[t].runAfter;
      assert found == DeferredDestroys(Snapshot(), i);
      return |found| == 1;
    }

    method MayDestroy(tk: Ticket, plan: Instant) returns (ok: bool)
      ensures ok <==> CanWriteDestroyed(Snapshot(), tk, plan)
    {
      hide OwnsLease;
      ok := Holds(tk);
      ok := ok && instances[tk.row.instance].status == DestroyScheduled
            && instances[tk.row.instance].destroyAt == Some(plan);
    }

    /** Retention is over and no active order of the instance has time left. */
    method MayPurge(tk: Ticket) returns (ok: bool)
      ensures ok <==> CanWritePurged(Snapshot(), tk)
    {
      hide OwnsLease;
      ok := Holds(tk);
      if !ok {
        return;
      }
      var i := tk.row.instance;
      if instances[i].status != Destroyed || instances[i].purgeAt.None? || now < instances[i].purgeAt.value {
        return false;
      }
      return !exists o :: o in orders && orders[o].instance == i && orders[o].status == OrderActive
                          && now < orders[o].end;
    }

    // ---------- what the loops and requests read before they act ----------

    /** The expiry loop: a platform instance that serves past its end of service. */
    method ReadExpiry(i: InstanceId) returns (ended: bool)
      ensures ended <==> ServiceEnded(Snapshot(), i)
    {
      if i !in instances || instances[i].node !in nodes || nodes[instances[i].node].selfHosted {
        return false;
      }
      return instances[i].status in {Running, Stopped} && instances[i].expiresAt < now;
    }

    /** The reconciler of lost operations: reviewed work of the simple kinds on a user's own node. */
    method ReadOperation(t: TaskId) returns (found: bool)
      ensures found <==> InDoubt(Snapshot(), t)
    {
      if t !in tasks || tasks[t].status != TaskReview || tasks[t].instance !in instances {
        return false;
      }
      var n := instances[tasks[t].instance].node;
      if n !in nodes || !nodes[n].selfHosted {
        return false;
      }
      return tasks[t].action in {Create, RetryDeploy, Start, Stop, Restart};
    }

    /** The cancel request, before its transaction: a plan the user may withdraw, and no work under way. */
    method ReadCancel(i: InstanceId) returns (ok: bool)
      ensures ok <==> MayCancelDestroy(Snapshot(), i)
    {
      if i !in instances || instances[i].status != DestroyScheduled {
        return false;
      }
      if instances[i].reason != Some(Manual) && instances[i].reason != Some(FailedDeployment) {
        return false;
      }
      return !exists t :: t in tasks && tasks[t].instance == i
                          && (tasks[t].status == TaskRunning
                              || (tasks[t].status == TaskPending && tasks[t].action != CompensateResize
                                  && (tasks[t].action !in {Destroy, Purge} || tasks[t].runAfter <= now)));
    }

    /** The reconciler of changes: a reviewed resize whose change waits for an inspection. */
    method ReadBlocked(t: TaskId) returns (found: bool)
      ensures found <==> World.CanStartRecon(Snapshot(), t)
    {
      if t !in tasks || tasks[t].action != Action.Resize || tasks[t].status != TaskReview || tasks[t].change.None? {
        return false;
      }
      var c := tasks[t].change.value;
      return c in changes && changes[c].status == InReview;
    }

    /** A destroy execution asks whether the plan it was built for is still in force. */
    method ReadPlan(tk: Ticket) returns (plan: Option<Instant>)
      ensures plan == PlanInForce(Snapshot(), tk)
    {
      var i := tk.row.instance;
      if i !in instances || instances[i].status != DestroyScheduled || instances[i].destroyAt.None? {
        return None;
      }
      var at := instances[i].destroyAt.value;
      return if tk.row.key == DestroyKey(i, at) then Some(at) else None;
    }

    // ---------- the queue ----------

    /** One transaction: the row is claimed and the instance locked, or neither. */
    method Claim(t: TaskId, token: Token) returns (ok: bool)
      requires Valid()
      modifies this
      ensures ok <==> CanClaim(old(Snapshot()), t, token)
      ensures Snapshot() == ClaimTask(old(Snapshot()), t, token)
      ensures ok ==> OwnsLease(Snapshot(), Ticket(t, tasks[t])) && HoldsLock(Snapshot(), Ticket(t, tasks[t]))
      ensures ok ==>
                var until := now + 5 * 60 * 1_000_000_000;
                && tasks[t] == old(tasks)[t].(status := TaskRunning, attempts := old(tasks)[t].attempts + 1,
                                              lease := Some(Lease(token, until)))
                && instances[tasks[t].instance].lock == Some(Lock(t, token, until))
      ensures Valid()
    {
      hide Evolves, SidelinedKept, LifeKept, TablesOk;
      UnpaidKeepsTables(Snapshot(), ClaimTask(Snapshot(), t, token));
      if t !in tasks || token in tokens || tasks[t].status != TaskPending || tasks[t].instance !in instances {
        return false;
      }
      var row := tasks[t];
      var instance := instances[row.instance];
      if instance.lock.Some? && now < instance.lock.value.expires {
        return false;
      }
      tasks := tasks[t := row.(status := TaskRunning, attempts := row.attempts + 1,
                               lease := Some(Lease(token, now + LEASE)))];
      instances := instances[row.instance := instance.(lock := Some(Lock(t, token, now + LEASE)))];
      tokens := tokens[token := t];
      return true;
    }

    method RenewRow(tk: Ticket) returns (ok: bool)
      requires Valid()
      modifies this`tasks
      ensures ok <==> OwnsLease(old(Snapshot()), tk)
      ensures Snapshot() == RenewTaskLease(old(Snapshot()), tk)
      ensures ok ==> OwnsLease(Snapshot(), tk) && tasks[tk.id].lease.value.expires == now + 5 * 60 * 1_000_000_000
      ensures Valid()
    {
      hide QueueOnly, TablesOk;
      QueueKeepsTables(Snapshot(), RenewTaskLease(Snapshot(), tk));
      ok := OwnsRow(tk);
      if ok {
        tasks := tasks[tk.id := tasks[tk.id].(lease := Some(Lease(tk.row.lease.value.token, now + LEASE)))];
      }
    }

    method RenewLock(tk: Ticket)
      requires Valid()
      modifies this`instances
      ensures Snapshot() == RenewInstanceLock(old(Snapshot()), tk)
      ensures HasLockToken(old(Snapshot()), tk) <==> HoldsLock(Snapshot(), tk)
      ensures Valid()
    {
      hide QueueOnly, TablesOk;
      QueueKeepsTables(Snapshot(), RenewInstanceLock(Snapshot(), tk));
      var named := NamesLock(tk);
      if named {
        var i := tk.row.instance;
        instances := instances[i := instances[i].(lock := Some(Lock(tk.id, tk.row.lease.value.token, now + LEASE)))];
      }
    }

    method Recover(t: TaskId, seen: Status)
      requires Valid()
      modifies this`tasks
      ensures Snapshot() == RecoverExpiredLease(old(Snapshot()), t, seen)
      ensures LeaseExpired(old(Snapshot()), t) ==>
                var a := tasks[t].action;
                tasks[t].lease.None?
                && tasks[t].status == if a == CompensateResize || (a == Create && seen == Deploying)
                                         || (a == Start && seen in {Stopped, DestroyScheduled})
                                      then TaskPending else TaskReview
      ensures Valid()
    {
      hide QueueOnly, TablesOk;
      if t in tasks && tasks[t].status == TaskRunning && tasks[t].lease.Some? && tasks[t].lease.value.expires <= now {
        var row := tasks[t];
        var next := TaskReview;
        if row.action.CompensateResize? {
          next := TaskPending;
        } else if !Dangerous(row.action) {
          if row.action.Create? && seen == Deploying {
            next := TaskPending;
          }
          if row.action.Start? && (seen == Stopped || seen == DestroyScheduled) {
            next := TaskPending;
          }
        }
        tasks := tasks[t := row.(status := next, runAfter := now, lease := None)];
      }
      assert Snapshot() == RecoverExpiredLease(old(Snapshot()), t, seen);
      QueueKeepsTables(old(Snapshot()), Snapshot());
    }

    /** Done; review after a cancelled command; after a failure review, failure or a delayed retry. */
    method Finish(tk: Ticket, outcome: Outcome) returns (ok: bool)
      requires Valid()
      modifies this`tasks
      ensures ok <==> OwnsLease(old(Snapshot()), tk)
      ensures Snapshot() == FinishTask(old(Snapshot()), tk, outcome)
      ensures !OwnsLease(Snapshot(), tk)
      ensures ok ==>
                var row := tasks[tk.id];
                match outcome
                case Succeeds => row.status == TaskDone
                case CommandCancelled => row.status == TaskReview
                case Fails =>
                  if tk.row.attempts < 3 || tk.row.action == CompensateResize
                  then row.status == TaskPending
                       && row.runAfter == now + tk.row.attempts * tk.row.attempts * (60 * 1_000_000_000)
                  else row.status == if tk.row.action == Action.Resize then TaskReview else TaskFailed
      ensures Valid()
    {
      hide QueueOnly, TablesOk;
      QueueKeepsTables(Snapshot(), FinishTask(Snapshot(), tk, outcome));
      var owned := OwnsRow(tk);
      if !owned {
        return false;
      }
      var row := tasks[tk.id].(lease := None);
      if outcome.Succeeds? {
        row := row.(status := TaskDone);
      } else if outcome.CommandCancelled? {
        row := row.(status := TaskReview);
      } else if tk.row.attempts >= MAX_ATTEMPTS && tk.row.action.Resize? {
        row := row.(status := TaskReview);
      } else if tk.row.attempts >= MAX_ATTEMPTS && !tk.row.action.CompensateResize? {
        row := row.(status := TaskFailed);
      } else {
        row := row.(status := TaskPending, runAfter := now + tk.row.attempts * tk.row.attempts * MINUTE);
      }
      tasks := tasks[tk.id := row];
      return true;
    }

    method ReleaseLock(tk: Ticket)
      requires Valid()
      modifies this`instances
      ensures Snapshot() == ReleaseInstanceLock(old(Snapshot()), tk)
      ensures !HasLockToken(Snapshot(), tk)
      ensures Valid()
    {
      hide QueueOnly, TablesOk;
      QueueKeepsTables(Snapshot(), ReleaseInstanceLock(Snapshot(), tk));
      var named := NamesLock(tk);
      if named {
        instances := instances[tk.row.instance := instances[tk.row.instance].(lock := None)];
      }
    }

    // ---------- the administrators' desk ----------

    method ResumeReviewed(t: TaskId) returns (ok: bool)
      requires Valid()
      modifies this`tasks
      ensures ok <==> t in old(tasks) && old(tasks)[t].status == TaskReview
      ensures Snapshot() == ResumeReview(old(Snapshot()), t)
      ensures Valid()
    {
      hide Evolves, LifeKept, TablesOk;
      UnpaidKeepsTables(Snapshot(), ResumeReview(Snapshot(), t));
      ok := t in tasks && tasks[t].status == TaskReview;
      if ok {
        tasks := tasks[t := tasks[t].(status := TaskPending, runAfter := now, lease := None)];
      }
    }

    /** The resume's second statement. */
    method ClearLocks(t: TaskId)
      requires Valid()
      modifies this`instances
      ensures Snapshot() == ClearLocksOf(old(Snapshot()), t)
      ensures forall i :: i in instances && instances[i].lock.Some? ==> instances[i].lock.value.task != t
      ensures Valid()
    {
      hide QueueOnly, TablesOk;
      QueueKeepsTables(Snapshot(), ClearLocksOf(Snapshot(), t));
      DropLocks(t);
    }

    method DropLocks(t: TaskId)
      modifies this`instances
      ensures Snapshot() == ClearLocksOf(old(Snapshot()), t)
    {
      hide QueueOnly, SameLife;
      instances := map i | i in instances ::
        if instances[i].lock.Some? && instances[i].lock.value.task == t then instances[i].(lock := None)
        else instances[i];
      assert forall i :: i in instances ==> instances[i] == ClearedLock(old(instances)[i], t);
      assert instances == ClearLocksOf(old(Snapshot()), t).instances;
    }

    /** A dangerous failure only moves to review. */
    method Retry(t: TaskId)
      requires Valid()
      modifies this`tasks
      ensures Snapshot() == RetryFailed(old(Snapshot()), t)
      ensures t in tasks && old(tasks)[t].status == TaskFailed ==>
                if tasks[t].action in
                     {Stop, Update, Restart, Reinstall, Destroy, Purge, RetryDeploy, Action.Resize, HostAccess}
                then tasks[t].status == TaskReview
                else tasks[t].status == TaskPending && tasks[t].attempts == 0 && tasks[t].runAfter == now
      ensures Valid()
    {
      hide QueueOnly, TablesOk;
      if t in tasks && tasks[t].status == TaskFailed {
        if Dangerous(tasks[t].action) {
          tasks := tasks[t := tasks[t].(status := TaskReview, lease := None)];
        } else {
          tasks := tasks[t := tasks[t].(status := TaskPending, attempts := 0, runAfter := now, lease := None)];
        }
      }
      assert Snapshot() == RetryFailed(old(Snapshot()), t);
      QueueKeepsTables(old(Snapshot()), Snapshot());
    }

    method CancelTask(t: TaskId)
      requires Valid()
      modifies this`tasks
      ensures Snapshot() == CancelQueued(old(Snapshot()), t)
      ensures t in tasks && old(tasks)[t].status == TaskPending ==>
                tasks[t].status == if tasks[t].action in {Start, Stop, Update, Restart, Reinstall, RetryDeploy}
                                   then TaskCancelled else TaskPending
      ensures Valid()
    {
      hide QueueOnly, TablesOk;
      QueueKeepsTables(Snapshot(), CancelQueued(Snapshot(), t));
      if t in tasks && UserCancelable(tasks[t].action) && tasks[t].status == TaskPending {
        tasks := tasks[t := tasks[t].(status := TaskCancelled, lease := None)];
      }
    }

    /** The sweep over failed work: dangerous kinds wait for a person, except a resize, which has its own way. */
    method Quarantine(t: TaskId)
      requires Valid()
      modifies this`tasks
      ensures Snapshot() == QuarantineFailed(old(Snapshot()), t)
      ensures t in tasks && old(tasks)[t].status == TaskFailed ==>
                tasks[t].status ==
                  if tasks[t].action in {Stop, Update, Restart, Reinstall, Destroy, Purge, RetryDeploy, HostAccess}
                  then TaskReview else TaskFailed
      ensures Valid()
    {
      hide QueueOnly, TablesOk;
      QueueKeepsTables(Snapshot(), QuarantineFailed(Snapshot(), t));
      if t in tasks && tasks[t].status == TaskFailed && tasks[t].action != Action.Resize && Dangerous(tasks[t].action) {
        tasks := tasks[t := tasks[t].(status := TaskReview, lease := None)];
      }
    }

    /** Reviewed work is given up; it may be retried as failed work may. */
    method Discard(t: TaskId)
      requires Valid()
      modifies this`tasks
      ensures Snapshot() == DiscardReview(old(Snapshot()), t)
      ensures Valid()
    {
      hide QueueOnly, TablesOk;
      QueueKeepsTables(Snapshot(), DiscardReview(Snapshot(), t));
      if t in tasks && tasks[t].status == TaskReview {
        tasks := tasks[t := tasks[t].(status := TaskFailed)];
      }
    }

    /** Failed or reviewed work is given up for good. */
    method DiscardFinally(t: TaskId)
      requires Valid()
      modifies this`tasks
      ensures Snapshot() == DiscardForGood(old(Snapshot()), t)
      ensures Valid()
    {
      hide QueueOnly, TablesOk;
      QueueKeepsTables(Snapshot(), DiscardForGood(Snapshot(), t));
      if t in tasks && (tasks[t].status == TaskFailed || tasks[t].status == TaskReview) {
        tasks := tasks[t := tasks[t].(status := TaskDiscarded, lease := None)];
      }
    }

    /** The task of an operation, or of a change, that a reconcile brought to its end. */
    method Close(t: TaskId, succeeded: bool)
      requires Valid()
      modifies this`tasks
      ensures Snapshot() == CloseReviewed(old(Snapshot()), t, succeeded)
      ensures succeeded ==> Snapshot() == CloseReconciled(old(Snapshot()), t)
      ensures Valid()
    {
      hide QueueOnly, TablesOk;
      QueueKeepsTables(Snapshot(), CloseReviewed(Snapshot(), t, succeeded));
      if t in tasks && tasks[t].status == TaskReview {
        var status := if succeeded then TaskDone else TaskFailed;
        tasks := tasks[t := tasks[t].(status := status, lease := None)];
      }
    }

    /** Saving a node switches it; a device that was unbound stays unbound. */
    method SaveNode(n: NodeId, enabled: bool)
      requires Valid()
      modifies this`nodes
      ensures Snapshot() == SwitchNode(old(Snapshot()), n, enabled)
      ensures n in nodes && nodes[n].enabled == enabled
      ensures n in old(nodes) ==> nodes[n].deviceEnabled == old(nodes)[n].deviceEnabled
      ensures Valid()
    {
      hide QueueOnly, TablesOk;
      QueueKeepsTables(Snapshot(), SwitchNode(Snapshot(), n, enabled));
      if n in nodes {
        nodes := nodes[n := nodes[n].(enabled := enabled)];
      } else {
        nodes := nodes[n := Node(enabled, false, true)];
      }
    }

    // ---------- wallets ----------

    /** The balance and its entry change together. */
    method Move(user: UserId, amount: int, order: Option<OrderId>, change: Option<ChangeId>)
      requires user in wallets
      modifies this`wallets, this`ledger
      ensures Snapshot() == Post(old(Snapshot()), user, amount, order, change)
    {
      var balance := wallets[user] + amount;
      wallets := wallets[user := balance];
      ledger := ledger + [Entry(user, amount, balance, order, change)];
    }

    /** A charge is recorded only when money moves. */
    method Pay(user: UserId, amount: int, order: OrderId)
      requires user in wallets && amount >= 0
      modifies this`wallets, this`ledger
      ensures Snapshot() == Charge(old(Snapshot()), user, amount, order)
    {
      hide EvolvesQuietly;
      if amount > 0 {
        Move(user, -amount, Some(order), None);
      }
    }

    /** The first sign-in opens an empty wallet; a later one leaves it alone. */
    method SignIn(user: UserId)
      requires Valid()
      modifies this`wallets
      ensures Snapshot() == OpenWallet(old(Snapshot()), user)
      ensures Valid()
    {
      hide EvolvesQuietly, TablesOk, LedgerInv;
      BalancedBooks(Snapshot());
      OpenWalletKeeps(Snapshot(), user);
      PaidKeepsTables(Snapshot(), OpenWallet(Snapshot(), user));
      if user !in wallets {
        wallets := wallets[user := 0];
      }
    }

    method Adjust(user: UserId, amount: int) returns (ok: bool)
      requires Valid()
      modifies this`wallets, this`ledger
      ensures ok <==> CanAdjust(old(Snapshot()), user, amount)
      ensures Snapshot() == AdjustWallet(old(Snapshot()), user, amount)
      ensures Valid()
    {
      hide EvolvesQuietly, TablesOk, LedgerInv;
      BalancedBooks(Snapshot());
      AdjustKeeps(Snapshot(), user, amount);
      PaidKeepsTables(Snapshot(), AdjustWallet(Snapshot(), user, amount));
      if amount == 0 || user !in wallets || wallets[user] + amount < 0 {
        return false;
      }
      Move(user, amount, None, None);
      return true;
    }

    method Purchase(p: Purchase) returns (ok: bool)
      requires Valid()
      modifies this
      ensures ok <==> CanPurchase(old(Snapshot()), p)
      ensures Snapshot() == PurchaseWithWallet(old(Snapshot()), p)
      ensures Valid()
    {
      hide EvolvesQuietly, QueueOnly, Charge, TablesOk, LedgerInv;
      BalancedBooks(Snapshot());
      PurchaseKeeps(Snapshot(), p);
      PaidKeepsTables(Snapshot(), PurchaseWithWallet(Snapshot(), p));
      ok := MayPurchase(p);
      if ok {
        Pay(p.user, p.amount, p.order);
        orders := orders[p.order := Order(p.user, p.instance, p.amount, OrderDeploying, now, p.end)];
        instances := instances[p.instance := Instance(p.user, p.node, Deploying, RuntimeOther, p.resources, 1, p.end,
                                                      None, None, None, None, None)];
        tasks := tasks[p.task := Task(p.instance, Create, CreateKey(p.instance), TaskPending, 0, now, None, 0, None,
                                      p.resources)];
        taskKeys := taskKeys + {CreateKey(p.instance)};
      }
    }
  
    method Renew(r: Renewal) returns (ok: bool)
      requires Valid()
      modifies this
      ensures ok <==> CanRenew(old(Snapshot()), r)
      ensures Snapshot() == RenewWithWallet(old(Snapshot()), r)
      ensures Valid()
    {
      hide EvolvesQuietly, QueueOnly, BlocksRenewal, Charge, TablesOk, LedgerInv;
      BalancedBooks(Snapshot());
      RenewKeeps(Snapshot(), r);
      PaidKeepsTables(Snapshot(), RenewWithWallet(Snapshot(), r));
      ok := MayRenew(r);
      if ok {
        var source := orders[r.source];
        var row := instances[source.instance];
        Pay(source.owner, r.amount, r.order);
        orders := orders[r.order := Order(source.owner, source.instance, r.amount, OrderActive,
                                          Later(now, row.expiresAt), r.end)];
        var runtime := if row.runtime == RuntimeRunning then RuntimeRunning else RuntimeStopped;
        var status := if runtime.RuntimeRunning? then Running else Stopped;
        instances := instances[source.instance := row.(status := status, runtime := runtime, expiresAt := r.end,
                                                       purgeAt := None, destroyAt := None, reason := None,
                                                       destroyedAt := None)];
        if row.status == DestroyScheduled && row.reason == Some(Expired) && !runtime.RuntimeRunning? {
          tasks := tasks[r.task := Task(source.instance, Start, RequestKey(r.task), TaskPending, 0, now, None, 0, None,
                                        row.resources)];
          taskKeys := taskKeys + {RequestKey(r.task)};
        }
      }
    }

    method Refund(order: OrderId, chain: seq<OrderId>) returns (ok: bool)
      requires Valid()
      modifies this
      ensures ok <==> CanRefund(old(Snapshot()), order, chain)
      ensures Snapshot() == RefundOrder(old(Snapshot()), order, chain)
      ensures ok ==>
                var user := old(orders)[order].owner;
                && user in old(wallets) && (forall k :: 0 <= k < |chain| ==> chain[k] in old(orders))
                && wallets == old(wallets)[user := old(wallets)[user]
                                                   + QuotedTotal(Segments(old(Snapshot()), chain), RefundCutoffAt(now))]
      ensures Valid()
    {
      hide EvolvesQuietly, ActiveChain, ValidChain, QuotedTotal, LinesTotal, RefundLines, RefundCutoffAt;
      hide Segments, TablesOk, LedgerInv, RefundedInstance, CanRefund, OrdersEvolve;
      BalancedBooks(Snapshot());
      RefundKeeps(Snapshot(), order, chain);
      PaidKeepsTables(Snapshot(), RefundOrder(Snapshot(), order, chain));
      var books := RefundBooks(order, chain);
      if books.None? || orders[order].instance !in instances {
        return false;
      }
      var i, user, cutoff := orders[order].instance, orders[order].owner, RefundCutoffAt(now);
      var row := instances[i];
      if row.reason == Some(UserNoRefund) || row.status !in {Running, Stopped, Destroyed, Purged} {
        return false;
      }
      row := Dismissed(row, cutoff);
      orders, ledger, wallets := books.value.orders, books.value.ledger, wallets[user := books.value.balance];
      instances := instances[i := row];
      settlements := settlements + {(i, order)};
      return true;
    }

    /** The refund's money: quote the chain, write the lines, and compare what they add up to. */
    method RefundBooks(order: OrderId, chain: seq<OrderId>) returns (r: Option<Books>)
      ensures r.Some? ==>
                order in orders && orders[order].owner in wallets
                && (forall k :: 0 <= k < |chain| ==> chain[k] in orders)
                && var user, segments, cutoff := orders[order].owner, Segments(Snapshot(), chain), RefundCutoffAt(now);
                   && (forall k :: 0 <= k < |segments| ==> segments[k].id in orders)
                   && r.value == RefundLines(Books(orders, ledger, wallets[user]), user, segments, cutoff)
                   && r.value.balance == wallets[user] + QuotedTotal(segments, cutoff)
      ensures CanRefund(Snapshot(), order, chain) <==>
                r.Some? && orders[order].instance in instances && Refundable(instances[orders[order].instance])
    {
      hide ActiveChain, ValidChain, QuotedTotal, LinesTotal, RefundLines, RefundCutoffAt, Segments, Refundable;
      if order !in orders {
        return None;
      }
      var i, user, cutoff := orders[order].instance, orders[order].owner, RefundCutoffAt(now);
      var active := IsActiveChain(i, user, chain);
      if !active {
        return None;
      }
      ChainKnown(Snapshot(), i, user, chain);
      AllPaidByWallet(Snapshot(), chain);
      var segments := Segments(Snapshot(), chain);
      var quote := QuoteInstanceRefund(segments, now);
      if quote.Failure? || (i, order) in settlements || user !in wallets {
        return None;
      }
      var books := WriteLines(Books(orders, ledger, wallets[user]), user, segments, cutoff);
      LinesPay(Books(orders, ledger, wallets[user]), user, segments, cutoff);
      if books.balance != wallets[user] + quote.value.amount {
        return None;
      }
      return Some(books);
    }

    /** The query: all active orders of the owner's instance, by their start. */
    method IsActiveChain(i: InstanceId, user: UserId, chain: seq<OrderId>) returns (ok: bool)
      ensures ok <==> ActiveChain(Snapshot(), i, user, chain)
    {
      for k := 0 to |chain|
        invariant forall j :: 0 <= j < k ==> chain[j] in orders
        invariant forall j :: 0 <= j < k ==>
                    orders[chain[j]].instance == i && orders[chain[j]].owner == user
                    && orders[chain[j]].status == OrderActive
        invariant forall h, j :: 0 <= h < j < k ==> chain[h] != chain[j]
        invariant forall h, j :: 0 <= h < j < k ==> orders[chain[h]].start <= orders[chain[j]].start
      {
        if chain[k] !in orders || chain[k] in chain[..k] {
          return false;
        }
        var o := orders[chain[k]];
        if o.instance != i || o.owner != user || o.status != OrderActive
            || (k > 0 && o.start < orders[chain[k - 1]].start) {
          return false;
        }
      }
      return !exists o :: o in orders && orders[o].instance == i && orders[o].owner == user
                          && orders[o].status == OrderActive && o !in chain;
    }

    // ---------- the saga ----------

    method Reserve(user: UserId, amount: int, c: ChangeId)
      requires amount > 0 ==> user in wallets
      modifies this`wallets, this`ledger, this`businessKeys
      ensures Snapshot() == Hold(old(Snapshot()), user, amount, c)
    {
      hide BooksOnly;
      if amount > 0 {
        Move(user, -amount, None, Some(c));
        businessKeys := businessKeys + {PendingPurchase(c)};
      }
    }

    method Bump(i: InstanceId)
      requires i in instances
      modifies this`instances
      ensures Snapshot() == BumpGeneration(old(Snapshot()), i) && i in instances
    {
      hide QueueOnly;
      instances := instances[i := instances[i].(generation := instances[i].generation + 1)];
    }

    /** Reserve, bump, record and queue: all of it or nothing. */
    method Open(p: Opening) returns (ok: bool)
      requires Valid()
      modifies this
      ensures ok <==> CanOpenChange(old(Snapshot()), p)
      ensures Snapshot() == OpenChange(old(Snapshot()), p)
      ensures Valid()
    {
      hide EvolvesQuietly, QueueOnly, BooksOnly, CanOpenChange, Hold, BumpGeneration, TablesOk, LedgerInv;
      BalancedBooks(Snapshot());
      OpenKeeps(Snapshot(), p);
      BooksKeepTables(Snapshot(), OpenChange(Snapshot(), p));
      ok := MayOpen(p);
      if ok {
        OpeningFacts(Snapshot(), p);
        var row := instances[p.instance];
        Reserve(p.owner, p.quote.charge, p.change);
        Bump(p.instance);
        changes := changes[p.change := Change(p.owner, p.instance, p.task, row.resources, p.target, p.quote.charge,
                                              p.quote.items, Processing, Applying, FundsPending, None, None)];
        tasks := tasks[p.task := Task(p.instance, Action.Resize, ResizeKey(p.change), TaskPending, 0, now, None,
                                      row.generation + 1,
                                      Some(p.change), p.target)];
        taskKeys := taskKeys + {ResizeKey(p.change)};
      }
    }

    method Block(c: ChangeId)
      requires Valid()
      modifies this`changes
      ensures Snapshot() == MarkBlocked(old(Snapshot()), c)
      ensures FailChange(Snapshot(), c) == Snapshot()
      ensures Valid()
    {
      hide BooksOnly, TablesOk, LedgerInv;
      BalancedBooks(Snapshot());
      BlockKeeps(Snapshot(), c);
      BooksKeepTables(Snapshot(), MarkBlocked(Snapshot(), c));
      if c in changes && changes[c].status == Processing {
        changes := changes[c := changes[c].(status := InReview, saga := Observing, funds := FundsBlocked)];
      }
    }

    method Resume(c: ChangeId) returns (ok: bool)
      requires Valid()
      modifies this`changes
      ensures ok <==> Resumable(old(Snapshot()), c)
      ensures Snapshot() == ResumeBlocked(old(Snapshot()), c)
      ensures ok ==> c in changes && changes[c].status == Processing && CanPay(Snapshot(), c)
      ensures Valid()
    {
      hide BooksOnly, TablesOk, LedgerInv;
      BalancedBooks(Snapshot());
      ResumeKeeps(Snapshot(), c);
      if c in changes { OpenChangeFacts(Snapshot(), c); }
      BooksKeepTables(Snapshot(), ResumeBlocked(Snapshot(), c));
      ok := c in changes && (changes[c].status == Processing
                             || (changes[c].status == InReview && changes[c].funds == FundsBlocked));
      if ok {
        changes := changes[c := changes[c].(status := Processing)];
      }
    }

    /** The reservation goes back; with nothing reserved only the columns change. */
    method GiveBack(c: ChangeId, key: BusinessKey)
      requires c in changes && CanPay(Snapshot(), c)
      modifies this
      ensures Snapshot() == Release(old(Snapshot()), c, key)
    {
      hide BooksOnly;
      var change := changes[c];
      if change.reservation > 0 {
        Move(change.owner, change.reservation, None, Some(c));
        businessKeys := businessKeys + {key};
      }
      changes := changes[c := change.(status := ChangeFailed, saga := SagaCancelled, funds := FundsReleased)];
    }

    method Fail(c: ChangeId)
      requires Valid()
      modifies this
      ensures Snapshot() == FailChange(old(Snapshot()), c)
      ensures c in old(changes) && old(changes)[c].status == Processing ==>
                var change := old(changes)[c];
                && change.owner in old(wallets) && change.owner in wallets
                && wallets[change.owner] == old(wallets)[change.owner] + change.reservation
      ensures Valid()
    {
      hide BooksOnly, TablesOk, LedgerInv;
      BalancedBooks(Snapshot());
      FailKeeps(Snapshot(), c);
      if c in changes { OpenChangeFacts(Snapshot(), c); }
      BooksKeepTables(Snapshot(), FailChange(Snapshot(), c));
      if c in changes && changes[c].status == Processing
          && (changes[c].reservation <= 0 || changes[c].owner in wallets) {
        GiveBack(c, FailRelease(c));
      }
    }

    /**
     A cancel settles at once on an observed source; otherwise it bumps a serving instance and
     queues the way back.
     */
    method RequestCancellation(c: ChangeId, t: TaskId)
      requires Valid()
      modifies this
      ensures Snapshot() == RequestCancel(old(Snapshot()), c, t)
      ensures Valid()
    {
      hide BooksOnly, QueueOnly, CanRequestCancel, ObservedAtSource, Release, BumpGeneration, QueueCompensation;
      hide TablesOk, LedgerInv;
      BalancedBooks(Snapshot());
      RequestCancelKeeps(Snapshot(), c, t);
      BooksKeepTables(Snapshot(), RequestCancel(Snapshot(), c, t));
      var may := MayCancel(c);
      if !may {
        return;
      }
      CancelFacts(Snapshot(), c);
      var change := changes[c];
      var atSource := AtSource(c);
      if atSource {
        if change.reservation <= 0 || change.owner in wallets {
          Bump(change.instance);
          if change.saga != SagaCancelled {
            GiveBack(c, CancelRelease(c));
          }
        }
      } else if t !in tasks && CompensateKey(c) !in taskKeys {
        QueueRollback(c, t);
      }
    }

    /** One statement over the instance's rows. */
    method DropQueuedResizes(i: InstanceId)
      modifies this`tasks
      ensures Snapshot() == CancelPendingResizes(old(Snapshot()), i)
    {
      hide QueueOnly;
      tasks := map k | k in tasks ::
        if tasks[k].instance == i && tasks[k].action == Action.Resize && tasks[k].status == TaskPending
        then tasks[k].(status := TaskCancelled) else tasks[k];
      assert forall k :: k in tasks ==> tasks[k] == CancelledResize(old(tasks)[k], i);
      assert tasks == CancelPendingResizes(old(Snapshot()), i).tasks;
    }

    method QueueRollback(c: ChangeId, t: TaskId)
      requires c in changes && changes[c].instance in instances && CanInsertTask(Snapshot(), t, CompensateKey(c))
      modifies this
      ensures Snapshot() == QueueCompensation(old(Snapshot()), c, t)
    {
      hide BooksOnly, QueueOnly, BumpGeneration, CancelledResize;
      var change := changes[c];
      if instances[change.instance].status in {Running, Stopped} {
        Bump(change.instance);
      }
      DropQueuedResizes(change.instance);
      tasks := tasks[t := Task(change.instance, CompensateResize, CompensateKey(c), TaskPending, 0, now, None,
                               instances[change.instance].generation, Some(c), change.source)];
      taskKeys := taskKeys + {CompensateKey(c)};
      changes := changes[c := change.(status := InReview, saga := Compensating, funds := FundsReserved,
                                      compensation := Some(t))];
    }

    method Compensate(tk: Ticket) returns (ok: bool)
      requires Valid()
      modifies this
      ensures ok <==> tk.row.change.Some? && CanCompensate(old(Snapshot()), tk, tk.row.change.value)
      ensures Snapshot() == CompleteCompensation(old(Snapshot()), tk)
      ensures Valid()
    {
      hide BooksOnly, Release, TablesOk, LedgerInv;
      BalancedBooks(Snapshot());
      CompensationKeeps(Snapshot(), tk);
      BooksKeepTables(Snapshot(), CompleteCompensation(Snapshot(), tk));
      ok := MayCompensate(tk);
      if !ok {
        return;
      }
      var c := tk.row.change.value;
      if instances[tk.row.instance].status in {Running, Stopped} {
        instances := instances[tk.row.instance := instances[tk.row.instance].(resources := tk.row.resources)];
      }
      GiveBack(c, CancelRelease(c));
      return true;
    }

    /**
     Settlement: the reservation goes back to the balance, then one charge and at most one refund
     per item; a failing item rolls the whole transaction back.
     */
    method Settle(tk: Ticket, ids: seq<OrderId>) returns (ok: bool)
      requires Valid()
      modifies this
      ensures var s := CompletePlanChange(old(Snapshot()), tk, ids);
              (ok <==> !s.Rejected?) && Snapshot() == (if s.Committed? then s.db else old(Snapshot()))
      ensures var s := CompletePlanChange(old(Snapshot()), tk, ids);
              s.Committed? && FreshIds(old(orders), ids) ==>
                var change := old(changes)[tk.row.change.value];
                change.owner in old(wallets)
                && wallets == old(wallets)[change.owner := old(wallets)[change.owner] + SumRefunds(change.items)]
      ensures CompletePlanChange(old(Snapshot()), tk, ids).Committed? && tk.row.lease.Some? ==>
                OwnsLease(old(Snapshot()), tk) && HoldsLock(old(Snapshot()), tk)
      ensures Valid()
    {
      hide BooksOnly, CanSettle, SettleItems, OpeningBooks, TablesOk, OwnsLease, HoldsLock;
      SettleKeepsTables(Snapshot(), tk, ids);
      SettlementNeedsItsLease(Snapshot(), tk, ids);
      if CompletePlanChange(Snapshot(), tk, ids).Committed? && FreshIds(orders, ids) {
        SettlementPaysRefunds(Snapshot(), tk, ids);
      }
      if tk.row.change.None? || tk.row.change.value !in changes {
        return false;
      }
      var c := tk.row.change.value;
      var change := changes[c];
      if change.status != Processing {
        return true;
      }
      var may := MaySettle(tk);
      if !may || |ids| != |change.items| {
        return false;
      }
      SettleFacts(Snapshot(), tk);
      var refilled := TakeBack(change, c);
      var settled := SettleLoop(refilled, change, c, change.items, ids);
      if settled.None? {
        return false;
      }
      Write(tk, c, settled.value);
      return true;
    }

    /** The reservation returns to the running balance before the first item. */
    method TakeBack(change: Change, c: ChangeId) returns (s: Ledgered)
      requires change.owner in wallets
      ensures s == OpeningBooks(Snapshot(), change, c)
    {
      var balance, lines, keys := wallets[change.owner], ledger, businessKeys;
      if change.reservation > 0 {
        balance := balance + change.reservation;
        lines := lines + [Entry(change.owner, change.reservation, balance, None, Some(c))];
        keys := keys + {SettleRelease(c)};
      }
      return Ledgered(Books(orders, lines, balance), keys);
    }

    /** The settlement's last statements. */
    method Write(tk: Ticket, c: ChangeId, s: Ledgered)
      requires tk.row.instance in instances && c in changes
      modifies this
      ensures var db := old(Snapshot());
              var row := db.instances[tk.row.instance];
              var settled := db.changes[c].(status := ChangeSucceeded, saga := Settled, funds := FundsSettled);
              Snapshot() == db.(orders := s.books.orders, ledger := s.books.ledger,
                                wallets := db.wallets[db.changes[c].owner := s.books.balance],
                                businessKeys := s.keys,
                                instances := db.instances[tk.row.instance := row.(resources := tk.row.resources)],
                                changes := db.changes[c := settled])
    {
      orders, ledger, businessKeys := s.books.orders, s.books.ledger, s.keys;
      wallets := wallets[changes[c].owner := s.books.balance];
      instances := instances[tk.row.instance := instances[tk.row.instance].(resources := tk.row.resources)];
      changes := changes[c := changes[c].(status := ChangeSucceeded, saga := Settled, funds := FundsSettled)];
    }

    // ---------- the lifecycle ----------

    method PlanDestruction(i: InstanceId, seen: Instance) returns (ok: bool)
      requires Valid()
      modifies this`instances
      ensures ok <==> i in old(instances) && CanPlanDestroy(old(instances)[i], seen)
      ensures Snapshot() == PlanDestroy(old(Snapshot()), i, seen)
      ensures ok ==> instances[i].status == DestroyScheduled
                     && instances[i].destroyAt == Some(now + 7 * 86_400 * 1_000_000_000)
      ensures Valid()
    {
      hide EvolvesQuietly, TablesOk, CanPlanDestroy;
      LifecycleKeepsTables(Snapshot(), PlanDestroy(Snapshot(), i, seen));
      ok := MayPlan(i, seen);
      if ok {
        var runtime := if seen.runtime.RuntimeOther? then RuntimeStopped else seen.runtime;
        var reason := if seen.status == DeploymentFailed then FailedDeployment else Manual;
        var row := instances[i].(status := DestroyScheduled, runtime := runtime, reason := Some(reason));
        instances := instances[i := row.(destroyAt := Some(now + GRACE), destroyedAt := None, purgeAt := None)];
      }
    }

    /** The cancel transaction: the deferred task must be there, exactly one, or nothing happens. */
    method CancelDestruction(i: InstanceId, seen: Runtime) returns (ok: bool)
      requires Valid()
      modifies this`instances, this`tasks
      ensures ok <==> CanCommitCancel(old(Snapshot()), i)
      ensures Snapshot() == CommitCancel(old(Snapshot()), i, seen)
      ensures ok ==> forall tk: Ticket, plan :: tk.row.instance == i ==> !CanWriteDestroyed(Snapshot(), tk, plan)
      ensures Valid()
    {
      hide EvolvesQuietly, TablesOk;
      ok := OneDeferred(i);
      if ok {
        var runtime := if seen == RuntimeRunning then RuntimeRunning else RuntimeStopped;
        var status := if runtime.RuntimeRunning? then Running else Stopped;
        instances := instances[i := instances[i].(status := status, runtime := runtime, destroyAt := None,
                                                  reason := None)];
        DropDeferred(i);
      }
      assert Snapshot() == CommitCancel(old(Snapshot()), i, seen);
      LifecycleKeepsTables(old(Snapshot()), Snapshot());
    }

    method DropDeferred(i: InstanceId)
      modifies this`tasks
      ensures tasks == map t | t in old(tasks) ::
                if Deferred(old(Snapshot()), t, i) then old(tasks)[t].(status := TaskCancelled, lease := None)
                else old(tasks)[t]
    {
      tasks := map t | t in tasks ::
        if tasks[t].instance == i && tasks[t].action == Destroy && tasks[t].status == TaskPending
            && now < tasks[t].runAfter
        then tasks[t].(status := TaskCancelled, lease := None) else tasks[t];
    }

    method CommitDestroy(tk: Ticket, plan: Instant) returns (ok: bool)
      requires Valid()
      modifies this`instances
      ensures ok <==> CanWriteDestroyed(old(Snapshot()), tk, plan)
      ensures Snapshot() == WriteDestroyed(old(Snapshot()), tk, plan)
      ensures ok ==> OwnsLease(old(Snapshot()), tk) && HoldsLock(old(Snapshot()), tk)
      ensures ok ==>
                var before, after := old(instances)[tk.row.instance], instances[tk.row.instance];
                before.destroyAt == Some(plan) && after.destroyedAt == Some(now)
                && after.purgeAt == Some(now + 30 * 86_400 * 1_000_000_000)
      ensures !CanWriteDestroyed(Snapshot(), tk, plan)
      ensures Valid()
    {
      hide EvolvesQuietly, OwnsLease, TablesOk;
      LifecycleKeepsTables(Snapshot(), WriteDestroyed(Snapshot(), tk, plan));
      ok := MayDestroy(tk, plan);
      if ok {
        var row := instances[tk.row.instance].(status := Destroyed, runtime := RuntimeStopped);
        instances := instances[tk.row.instance := row.(destroyedAt := Some(now), purgeAt := Some(now + PURGE_DELAY))];
      }
    }

    method CommitPurge(tk: Ticket) returns (ok: bool)
      requires Valid()
      modifies this`instances
      ensures ok <==> CanWritePurged(old(Snapshot()), tk)
      ensures Snapshot() == WritePurged(old(Snapshot()), tk)
      ensures ok ==> OwnsLease(old(Snapshot()), tk) && HoldsLock(old(Snapshot()), tk)
      ensures ok ==>
                var was := old(instances)[tk.row.instance];
                was.status == Destroyed && was.purgeAt.Some? && was.purgeAt.value <= now
      ensures !PurgeDue(Snapshot(), tk.row.instance) || !OwnsLease(Snapshot(), tk) || !HoldsLock(Snapshot(), tk)
      ensures Valid()
    {
      hide EvolvesQuietly, OwnsLease, TablesOk;
      LifecycleKeepsTables(Snapshot(), WritePurged(Snapshot(), tk));
      ok := MayPurge(tk);
      if ok {
        instances := instances[tk.row.instance := instances[tk.row.instance].(status := Purged)];
      }
    }

    /** Unbinding a node: its queue is cancelled, running work isolated, locks dropped only if something ran. */
    method Revoke(n: NodeId)
      requires Valid()
      modifies this
      ensures Snapshot() == RevokeNode(old(Snapshot()), n)
      ensures Valid()
    {
      hide QueueOnly, RevokedOn, RevokedAt, TablesOk, RunsWork, RevokeTasks, RevokeInstances, DisableNode;
      if n in nodes && nodes[n].selfHosted && nodes[n].enabled {
        var ran := Ran(n);
        Disable(n);
        IsolateWork(n);
        LoseSight(n, ran);
      }
      assert Snapshot() == RevokeNode(old(Snapshot()), n);
      QueueKeepsTables(old(Snapshot()), Snapshot());
    }

    method Ran(n: NodeId) returns (ok: bool)
      ensures ok <==> RunsWork(Snapshot(), n)
    {
      ok := exists t :: t in tasks && tasks[t].status == TaskRunning && tasks[t].instance in instances
                        && instances[tasks[t].instance].node == n;
    }

    method Disable(n: NodeId)
      requires n in nodes && nodes[n].selfHosted
      modifies this`nodes
      ensures Snapshot() == DisableNode(old(Snapshot()), n)
    {
      hide QueueOnly;
      nodes := nodes[n := nodes[n].(enabled := false, deviceEnabled := false)];
    }

    /** Queued work of the node is cancelled and running work goes to review; both give up their leases. */
    method IsolateWork(n: NodeId)
      modifies this`tasks
      ensures Snapshot() == RevokeTasks(old(Snapshot()), n)
    {
      hide QueueOnly, LeaseMatchesStatus, Sidelined;
      tasks := map t | t in tasks ::
        if tasks[t].instance !in instances || instances[tasks[t].instance].node != n then tasks[t]
        else if tasks[t].status == TaskPending then tasks[t].(status := TaskCancelled, lease := None)
        else if tasks[t].status == TaskRunning then tasks[t].(status := TaskReview, lease := None)
        else tasks[t];
      assert forall t :: t in tasks ==> tasks[t] == RevokedOn(old(Snapshot()), old(tasks)[t], n);
      assert tasks == RevokeTasks(old(Snapshot()), n).tasks;
    }

    /** Nobody observes the node's containers any more; the locks of all its instances go if any work ran. */
    method LoseSight(n: NodeId, ran: bool)
      modifies this`instances
      ensures Snapshot() == RevokeInstances(old(Snapshot()), n, ran)
    {
      hide QueueOnly, SameLife;
      instances := map i | i in instances ::
        if instances[i].node != n then instances[i]
        else
          var runtime := if instances[i].status in {Deploying, Running, Stopped, DestroyScheduled} then RuntimeOther
                         else instances[i].runtime;
          if ran then instances[i].(runtime := runtime, lock := None) else instances[i].(runtime := runtime);
      assert forall i :: i in instances ==> instances[i] == RevokedAt(old(instances)[i], n, ran);
      assert instances == RevokeInstances(old(Snapshot()), n, ran).instances;
    }

    // ---------- requests and bookkeeping ----------

    /** Start, stop, update, restart, reinstall, retry and host-access requests. */
    method RequestAction(t: TaskId, i: InstanceId, a: Action, stamp: Stamp)
      requires Valid()
      modifies this
      ensures Snapshot() == QueueAction(old(Snapshot()), t, i, a, stamp)
      ensures Valid()
    {
      hide QueueOnly, TablesOk, BumpGeneration;
      QueueKeepsTables(Snapshot(), QueueAction(Snapshot(), t, i, a, stamp));
      if i !in instances || t in tasks || RequestKey(t) in taskKeys
          || a in {Create, Destroy, Purge, Action.Resize, CompensateResize} {
        return;
      }
      var resources := instances[i].resources;
      if stamp == Bumped {
        Bump(i);
      }
      var g := if stamp == Unstamped then 0 else instances[i].generation;
      tasks := tasks[t := Task(i, a, RequestKey(t), TaskPending, 0, now, None, g, None, resources)];
      taskKeys := taskKeys + {RequestKey(t)};
    }

    /** A deployment on a user's own node has no order and no end of service. */
    method DeployOnOwnNode(d: OwnDeployment) returns (ok: bool)
      requires Valid()
      modifies this
      ensures ok <==> CanDeployOwn(old(Snapshot()), d)
      ensures Snapshot() == DeployOwn(old(Snapshot()), d)
      ensures Valid()
    {
      hide EvolvesQuietly, QueueOnly, TablesOk, LedgerInv;
      BalancedBooks(Snapshot());
      DeployKeeps(Snapshot(), d);
      PaidKeepsTables(Snapshot(), DeployOwn(Snapshot(), d));
      if d.instance in instances || d.task in tasks || CreateKey(d.instance) in taskKeys {
        return false;
      }
      if d.node !in nodes || !nodes[d.node].enabled || !nodes[d.node].selfHosted || !nodes[d.node].deviceEnabled {
        return false;
      }
      instances := instances[d.instance := Instance(d.user, d.node, Deploying, RuntimeRunning, d.resources, 1, 0,
                                                    None, None, None, None, None)];
      tasks := tasks[d.task := Task(d.instance, Create, CreateKey(d.instance), TaskPending, 0, now, None, 0, None,
                                    d.resources)];
      taskKeys := taskKeys + {CreateKey(d.instance)};
      return true;
    }

    /** The conditional transition of state synchronisation, failed deployments and retries. */
    method MoveStatus(i: InstanceId, from: Status, to: Status, runtime: Runtime)
      requires Valid()
      modifies this`instances
      ensures Snapshot() == RuntimeMove(old(Snapshot()), i, from, to, runtime)
      ensures Valid()
    {
      hide EvolvesQuietly, TablesOk;
      LifecycleKeepsTables(Snapshot(), RuntimeMove(Snapshot(), i, from, to, runtime));
      if i !in instances || instances[i].status != from {
        return;
      }
      if from == to || (from, to) in {(Deploying, Running), (Deploying, DeploymentFailed),
                                      (DeploymentFailed, Deploying), (Running, Stopped), (Stopped, Running)} {
        instances := instances[i := instances[i].(status := to, runtime := runtime)];
      }
    }

    /** The order updates that follow a status move: active after a deployment, failed with it, expired with it. */
    method MoveOrdersOf(i: InstanceId, from: set<OrderStatus>, to: OrderStatus)
      requires OrderRefunded !in from
      modifies this`orders
      ensures Snapshot() == MoveOrders(old(Snapshot()), i, from, to)
    {
      hide BooksOnly;
      orders := map o | o in orders ::
        if orders[o].instance == i && orders[o].status in from then orders[o].(status := to) else orders[o];
    }

    method ActivateService(i: InstanceId)
      requires Valid()
      modifies this`orders
      ensures Snapshot() == ActivateOrders(old(Snapshot()), i)
      ensures Valid()
    {
      hide BooksOnly, TablesOk, LedgerInv;
      BalancedBooks(Snapshot());
      ActivateKeeps(Snapshot(), i);
      BooksKeepTables(Snapshot(), ActivateOrders(Snapshot(), i));
      MoveOrdersOf(i, {OrderDeploying}, OrderActive);
    }

    method ExpireOrdersOf(i: InstanceId)
      requires Valid()
      modifies this`orders
      ensures Snapshot() == ExpireOrders(old(Snapshot()), i)
      ensures Valid()
    {
      hide BooksOnly, TablesOk, LedgerInv;
      BalancedBooks(Snapshot());
      MoveOrdersKeeps(Snapshot(), i, {OrderActive, OrderDeploying}, OrderExpired);
      BooksKeepTables(Snapshot(), ExpireOrders(Snapshot(), i));
      MoveOrdersOf(i, {OrderActive, OrderDeploying}, OrderExpired);
    }

    method FailOrdersOf(i: InstanceId)
      requires Valid()
      modifies this`orders
      ensures Snapshot() == FailOrders(old(Snapshot()), i)
      ensures Valid()
    {
      hide BooksOnly, TablesOk, LedgerInv;
      BalancedBooks(Snapshot());
      MoveOrdersKeeps(Snapshot(), i, {OrderDeploying}, OrderDeployFailed);
      BooksKeepTables(Snapshot(), FailOrders(Snapshot(), i));
      MoveOrdersOf(i, {OrderDeploying}, OrderDeployFailed);
    }

    /** What an inspection saw is recorded on the change whatever its status. */
    method Observe(c: ChangeId, seen: Resources)
      requires Valid()
      modifies this`changes
      ensures Snapshot() == RecordObservation(old(Snapshot()), c, seen)
      ensures Valid()
    {
      hide BooksOnly, TablesOk, LedgerInv;
      BalancedBooks(Snapshot());
      ObserveKeeps(Snapshot(), c, seen);
      BooksKeepTables(Snapshot(), RecordObservation(Snapshot(), c, seen));
      if c in changes {
        changes := changes[c := changes[c].(observed := Some(seen))];
      }
    }

    /** The expiry loop's update: an instance that serves is planned for seven days after its end of service. */
    method ExpireService(i: InstanceId, seen: Status)
      requires Valid()
      modifies this`instances
      ensures Snapshot() == ExpireInstance(old(Snapshot()), i, seen)
      ensures i in old(instances) && old(instances)[i].status in {Running, Stopped} ==>
                i in instances
                && instances[i].destroyAt == Some(old(instances)[i].expiresAt + 7 * 86_400 * 1_000_000_000)
      ensures Valid()
    {
      hide EvolvesQuietly, TablesOk;
      LifecycleKeepsTables(Snapshot(), ExpireInstance(Snapshot(), i, seen));
      if i in instances && instances[i].status in {Running, Stopped} {
        var runtime := if seen == Running then RuntimeRunning else RuntimeStopped;
        var row := instances[i].(status := DestroyScheduled, runtime := runtime, reason := Some(Expired));
        instances := instances[i := row.(destroyAt := Some(row.expiresAt + GRACE), purgeAt := None)];
      }
    }

    /** Destroy-now gives the refund up, but only of a plan the user made. */
    method GiveUpRefund(i: InstanceId)
      requires Valid()
      modifies this`instances
      ensures Snapshot() == WaiveRefund(old(Snapshot()), i)
      ensures Valid()
    {
      hide EvolvesQuietly, TablesOk;
      LifecycleKeepsTables(Snapshot(), WaiveRefund(Snapshot(), i));
      if i in instances && instances[i].status == DestroyScheduled && instances[i].reason == Some(Manual) {
        instances := instances[i := instances[i].(reason := Some(UserNoRefund))];
      }
    }

    /** INSERT IGNORE: a task of the same plan is there already, or is queued now. */
    method ScheduleTask(t: TaskId, i: InstanceId, purge: bool, at: Instant, runAfter: Instant)
      requires Valid()
      modifies this
      ensures Snapshot() == ScheduleLifecycleTask(old(Snapshot()), t, i, purge, at, runAfter)
      ensures Valid()
    {
      hide EvolvesQuietly, TablesOk;
      LifecycleKeepsTables(Snapshot(), ScheduleLifecycleTask(Snapshot(), t, i, purge, at, runAfter));
      var key := if purge then PurgeKey(i, at) else DestroyKey(i, at);
      if i in instances && t !in tasks && key !in taskKeys {
        var action := if purge then Purge else Destroy;
        tasks := tasks[t := Task(i, action, key, TaskPending, 0, runAfter, None, 0, None, instances[i].resources)];
        taskKeys := taskKeys + {key};
      }
    }

    /** What the worker writes once the Agent answered; `seen` is the status it read before its first check. */
    method ReportAnswer(i: InstanceId, a: Action, seen: Status) returns (ok: bool)
      requires Valid()
      modifies this`instances
      ensures ok <==> CanReport(old(Snapshot()), i, a, seen)
      ensures Snapshot() == ReportRuntime(old(Snapshot()), i, a, seen)
      ensures Valid()
    {
      hide EvolvesQuietly, TablesOk, CanTransition, ReportedFrom, ReportedTo;
      LifecycleKeepsTables(Snapshot(), ReportRuntime(Snapshot(), i, a, seen));
      var from, to := AnswerMoves(a, seen);
      ok := i in instances && instances[i].status == from && CanTransition(from, to);
      if ok {
        var runtime := if a == Stop then RuntimeStopped else RuntimeRunning;
        instances := instances[i := instances[i].(status := to, runtime := runtime)];
      }
    }

    /** The reconciler's update for an operation whose answer was lost. */
    method CloseInDoubt(t: TaskId, lifecycle: Status)
      requires Valid()
      modifies this`instances
      ensures Snapshot() == FinalizeReconciled(old(Snapshot()), t, lifecycle)
      ensures Valid()
    {
      hide EvolvesQuietly, TablesOk, CanTransition, ReconciledStatus;
      LifecycleKeepsTables(Snapshot(), FinalizeReconciled(Snapshot(), t, lifecycle));
      if t !in tasks || tasks[t].action !in {Create, RetryDeploy, Start, Stop, Restart} {
        return;
      }
      var a, i := tasks[t].action, tasks[t].instance;
      var to := ObservedMove(a, lifecycle);
      if i in instances && instances[i].status == lifecycle && CanTransition(lifecycle, to) {
        var runtime := if a == Stop then RuntimeStopped else RuntimeRunning;
        instances := instances[i := instances[i].(status := to, runtime := runtime)];
      }
    }
  }

  /** Start, stop and restart leave a planned destruction in force; deployments and updates name their state. */
  method AnswerMoves(a: Action, seen: Status) returns (from: Status, to: Status)
    ensures from == ReportedFrom(a, seen) && to == ReportedTo(a, seen)
  {
    from, to := seen, Running;
    if a == Create || a == RetryDeploy {
      from := Deploying;
    } else if a == Update {
      from := Running;
    } else if a == Stop {
      to := Stopped;
    }
    if (a == Start || a == Stop || a == Restart) && seen == DestroyScheduled {
      to := seen;
    }
  }

  /** After its write only a deployment or a start goes on, and only a reinstall insists that the write matched. */
  method AnswerPhase(a: Action, seen: Status, changed: bool) returns (phase: World.Phase)
    ensures phase == World.ReportedPhase(a, seen, changed)
  {
    hide CanTransition, ReportedFrom, ReportedTo;
    var from, to := AnswerMoves(a, seen);
    if !CanTransition(from, to) {
      return World.Returned(Fails);
    }
    if a == Reinstall && !changed {
      return World.Returned(Fails);
    }
    if changed && a in {Create, RetryDeploy, Start} {
      return World.Transitioned;
    }
    return World.Returned(Succeeds);
  }

  method ObservedMove(a: Action, lifecycle: Status) returns (to: Status)
    ensures to == ReconciledStatus(a, lifecycle)
  {
    to := Running;
    if a != Create && a != RetryDeploy {
      if lifecycle == DestroyScheduled {
        to := lifecycle;
      } else if a == Stop {
        to := Stopped;
      }
    }
  }

  /** A refunded service ends at the cutoff; resources that are gone already are left alone. */
  method Dismissed(row: Instance, cutoff: Instant) returns (r: Instance)
    ensures r == RefundedInstance(row, cutoff)
  {
    if row.status !in {Running, Stopped} {
      return row;
    }
    var runtime := if row.runtime == RuntimeRunning then RuntimeRunning else RuntimeStopped;
    r := row.(status := DestroyScheduled, runtime := runtime, expiresAt := cutoff, destroyAt := Some(cutoff));
    r := r.(reason := Some(Reason.Refund), destroyedAt := None, purgeAt := None);
  }

  /** The refund's loop: one line per active order, over a running balance. */
  method WriteLines(b: Books, user: UserId, segments: seq<Segment>, cutoff: Instant) returns (r: Books)
    requires forall k :: 0 <= k < |segments| ==> segments[k].id in b.orders
    ensures r == RefundLines(b, user, segments, cutoff)
  {
    hide RefundAmountForSegment, OrdersEvolve;
    var book, lines, balance := b.orders, b.ledger, b.balance;
    var k := 0;
    while k < |segments|
      invariant 0 <= k <= |segments|
      invariant book.Keys == b.orders.Keys
      invariant RefundLines(b, user, segments[..k], cutoff) == Books(book, lines, balance)
    {
      assert segments[..k + 1][..k] == segments[..k];
      var s := segments[k];
      var amount := RefundAmountForSegment(s, cutoff);
      if amount > 0 {
        balance := balance + amount;
        lines := lines + [Entry(user, amount, balance, Some(s.id), None)];
      }
      book := book[s.id := book[s.id].(status := OrderRefunded, end := Later(cutoff, s.start))];
      k := k + 1;
    }
    assert segments[..|segments|] == segments;
    return Books(book, lines, balance);
  }

  /** The settlement's loop: charge and place the replacement, retire and credit the source, item by item. */
  method SettleLoop(start: Ledgered, change: Change, c: ChangeId, items: seq<QuoteItem>,
                    ids: seq<OrderId>) returns (r: Option<Ledgered>)
    requires |items| == |ids|
    ensures r == SettleItems(start, change, c, items, ids)
  {
    hide OrdersEvolve;
    var balance, book, lines, keys := start.books.balance, start.books.orders, start.books.ledger, start.keys;
    var k := 0;
    while k < |items|
      invariant 0 <= k <= |items|
      invariant SettleItems(start, change, c, items[..k], ids[..k]) == Some(Ledgered(Books(book, lines, balance), keys))
    {
      var item, id := items[k], ids[k];
      assert items[..k + 1][..k] == items[..k] && ids[..k + 1][..k] == ids[..k];
      if item.order !in book || id in book || balance < item.charge
          || (item.refund > 0 && SourceRefund(item.order) in keys) {
        PrefixFails(start, change, c, items, ids, k + 1);
        return None;
      }
      balance := balance - item.charge;
      lines := lines + [Entry(change.owner, -item.charge, balance, Some(id), Some(c))];
      book := book[id := Order(change.owner, change.instance, item.charge, OrderActive, item.start, item.end)];
      keys := keys + {ReplacementPurchase(id)};
      if item.refund > 0 {
        balance := balance + item.refund;
        lines := lines + [Entry(change.owner, item.refund, balance, Some(item.order), Some(c))];
        keys := keys + {SourceRefund(item.order)};
      }
      if book[item.order].status == OrderActive {
        book := book[item.order := book[item.order].(status := OrderExchanged)];
      }
      ghost var source := book[item.order];
      assert book[item.order := source] == book;
      k := k + 1;
    }
    assert items[..|items|] == items && ids[..|ids|] == ids;
    return Some(Ledgered(Books(book, lines, balance), keys));
  }

  lemma SettleKeepsTables(db: Db, tk: Ticket, ids: seq<OrderId>)
    requires TablesOk(db)
    ensures var r := CompletePlanChange(db, tk, ids); r.Committed? ==> TablesOk(r.db)
  {
    hide BooksOnly, TablesOk, LedgerInv, CompletePlanChange;
    var r := CompletePlanChange(db, tk, ids);
    if r.Committed? {
      BalancedBooks(db);
      SettlementKeeps(db, tk, ids);
      BooksKeepTables(db, r.db);
    }
  }

  /** The charge was reserved, so a settlement adds the refunds to the wallet and takes nothing more. */
  lemma SettlementPaysRefunds(db: Db, tk: Ticket, ids: seq<OrderId>)
    requires TablesOk(db) && CompletePlanChange(db, tk, ids).Committed? && FreshIds(db.orders, ids)
    ensures var change := db.changes[tk.row.change.value];
            change.owner in db.wallets
            && CompletePlanChange(db, tk, ids).db.wallets
               == db.wallets[change.owner := db.wallets[change.owner] + SumRefunds(change.items)]
  {
    hide BooksOnly, TablesOk, LedgerInv, SettleItems, OpeningBooks, CanSettle;
    BalancedBooks(db);
    SettlementIsCovered(db, tk.row.change.value, ids);
  }

  lemma OpeningFacts(db: Db, p: Opening)
    requires CanOpenChange(db, p)
    ensures p.instance in db.instances && (p.quote.charge > 0 ==> p.owner in db.wallets)
  {
  }

  lemma ChainKnown(db: Db, i: InstanceId, user: UserId, chain: seq<OrderId>)
    requires ActiveChain(db, i, user, chain)
    ensures forall k :: 0 <= k < |chain| ==> chain[k] in db.orders
    ensures forall k :: 0 <= k < |chain| ==> Segments(db, chain)[k].id in db.orders
  {
  }

  lemma AllPaidByWallet(db: Db, chain: seq<OrderId>)
    requires forall k :: 0 <= k < |chain| ==> chain[k] in db.orders
    ensures ActivePaidByWallet(Segments(db, chain))
    ensures forall k :: 0 <= k < |chain| ==> Segments(db, chain)[k].active
  {
  }

  lemma CancelFacts(db: Db, c: ChangeId)
    requires CanRequestCancel(db, c)
    ensures c in db.changes && db.changes[c].instance in db.instances
  {
  }

  lemma SettleFacts(db: Db, tk: Ticket)
    requires CanSettle(db, tk)
    ensures tk.row.change.Some? && tk.row.change.value in db.changes
            && db.changes[tk.row.change.value].owner in db.wallets
            && tk.row.instance in db.instances
  {
  }

  /** One failing item is the whole settlement's failure. */
  lemma {:induction false} PrefixFails(s: Ledgered, change: Change, c: ChangeId, items: seq<QuoteItem>,
                                       ids: seq<OrderId>, k: nat)
    requires |items| == |ids| && k <= |items| && SettleItems(s, change, c, items[..k], ids[..k]).None?
    ensures SettleItems(s, change, c, items, ids).None?
    decreases |items|
  {
    hide SettleItem, OrdersEvolve;
    if k == |items| {
      assert items[..k] == items && ids[..k] == ids;
    } else {
      var n := |items| - 1;
      assert items[..n][..k] == items[..k] && ids[..n][..k] == ids[..k];
      PrefixFails(s, change, c, items[..n], ids[..n], k);
    }
  }
}
