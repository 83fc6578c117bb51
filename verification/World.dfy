/**
 Every run of the control plane: the database plus everything that is in flight.

 A process is a worker execution, a reconcile of a blocked change, or a view: a cancel request, an
 operation in doubt or an expiry between the reads and the update that relies on them. Its steps
 interleave freely with all others, may be delayed for any time, and may never happen (a crash).
 Message delivery is "any task, any time".
 A step whose guard fails changes nothing, like a conditional update that matches no row.
 */
module World {
  import opened Wrappers
  import opened Billing
  import opened Schema
  import opened TaskQueue
  import opened Lifecycle
  import opened Commerce
  import opened PlanChange

  // ---------- worker executions ----------

  /**
   The worker's program: reload the row after the claim; check the fence before each Agent
   request; commit; finish; then the statements that follow an accepted finish one by one.
   */
  datatype Phase = Claimed | Loaded | Cleared | Planned | Applied | Transitioned | Unsettled
                 | Returned(outcome: Outcome)
                 | Accepted(outcome: Outcome, next: TaskStatus) | Unlocked(outcome: Outcome, next: TaskStatus)
                 | Marked(outcome: Outcome) | Closed

  datatype RenewLoop = Waiting | BetweenStatements | Ended

  /**
   `plan` is the destroy time, or for a purge and a reinstall the time of the last read, that the
   execution relies on; `seen` is the instance status it read before its first fence check.
   */
  datatype Exec = Exec(task: TaskId, ticket: Option<Task>, phase: Phase, renewal: RenewLoop, plan: Option<Instant>,
                       seen: Option<Status>)

  // ---------- reconciles ----------

  datatype ReconPhase = Inspecting | Saw(seen: Resources) | Resumed(seen: Resources) | SettleFailed
                      | Closing(settled: bool) | Unlocking | ReconDone

  datatype Recon = Recon(task: TaskId, row: Task, change: ChangeId, phase: ReconPhase)

  /** Rows a request or the reconciler read before it acts on them: a planned destruction, or an operation in doubt. */
  datatype View = CancelView(instance: InstanceId, runtime: Runtime) | OperationView(task: TaskId, lifecycle: Status)
                | ExpiryView(expiring: InstanceId, status: Status)

  /**
   `latest` remembers each instance's last successful claim and `discarded` the reviewed tasks an
   administrator gave up.
   */
  datatype World = World(db: Db, execs: map<Token, Exec>, recons: map<int, Recon>, views: map<int, View>,
                         latest: map<InstanceId, Token>, discarded: set<TaskId>)

  function Genesis(now: Instant): World {
    World(EmptyDb(now), map[], map[], map[], map[], {})
  }

  function TicketOf(x: Exec): Ticket
    requires x.ticket.Some?
  {
    Ticket(x.task, x.ticket.value)
  }

  predicate Has(w: World, e: Token) {
    e in w.execs && w.execs[e].ticket.Some?
  }

  /** Executions keep their task and, once loaded, their ticket. */
  ghost predicate SameTickets(a: map<Token, Exec>, b: map<Token, Exec>) {
    a == b
    || (a.Keys == b.Keys
        && forall e :: e in a ==>
             (a[e].task == b[e].task && a[e].ticket == b[e].ticket && (b[e].phase.Claimed? <==> a[e].phase.Claimed?)))
  }

  ghost predicate SameRenewals(a: map<Token, Exec>, b: map<Token, Exec>) {
    a == b || forall e :: e in a ==> (e in b && a[e].renewal == b[e].renewal)
  }

  ghost predicate SameRows(a: map<int, Recon>, b: map<int, Recon>) {
    a == b
    || (a.Keys == b.Keys && forall r :: r in a ==>
        (a[r].task == b[r].task && a[r].row == b[r].row && a[r].change == b[r].change))
  }

  function SetPhase(w: World, e: Token, phase: Phase): (v: World)
    requires e in w.execs && !phase.Claimed? && !w.execs[e].phase.Claimed?
    ensures SameTickets(w.execs, v.execs) && SameRenewals(w.execs, v.execs)
  {
    w.(execs := w.execs[e := w.execs[e].(phase := phase)])
  }

  // ---------- steps ----------

  datatype LeaseStep =
    | Tick(elapsed: nat)
    | AddNode(node: NodeId, selfHosted: bool)
    | Claim(task: TaskId, token: Token)
    | Reload(exec: Token)
    | RenewRow(exec: Token)
    | RenewLock(exec: Token, ok: bool)
    | Recover(task: TaskId, seen: Status, recon: int)
    | Finish(exec: Token)
    | Unlock(exec: Token)

  datatype DeskStep =
    | Quarantine(task: TaskId)
    | Retry(task: TaskId)
    | Resume(task: TaskId)
    | Discard(task: TaskId, forGood: bool)
    | ClearLocks(task: TaskId)
    | CancelTask(task: TaskId)
    | CloseOperation(task: TaskId)
    | Revoke(node: NodeId)
    | SaveNode(node: NodeId, enabled: bool)
    | Request(task: TaskId, instance: InstanceId, action: Action, stamp: Stamp)

  datatype ExecStep =
    | ReadInstance(exec: Token)
    | Fence(exec: Token)
    | CallAgent(exec: Token, outcome: Outcome)
    | ReturnApplied(exec: Token, ok: bool)
    | ReadPlan(exec: Token)
    | Report(exec: Token)
    | CommitDestroy(exec: Token)
    | CommitPurge(exec: Token)

  datatype SagaStep =
    | Open(opening: Opening)
    | RequestCompensation(change: ChangeId, task: TaskId)
    | SettleExec(exec: Token, ids: seq<OrderId>)
    | CompensateExec(exec: Token)
    | BlockExec(exec: Token)
    | MarkObserving(exec: Token)
    | FailDeployment(exec: Token)
    | SettleDiscarded(task: TaskId)
    | ActivateExec(exec: Token)

  datatype ReconStep =
    | StartRecon(recon: int, task: TaskId)
    | Inspect(recon: int, seen: Option<Resources>)
    | Decide(recon: int)
    | SettleRecon(recon: int, ids: seq<OrderId>)
    | BlockRecon(recon: int)
    | CloseRecon(recon: int)
    | UnlockRecon(recon: int)

  datatype ShopStep =
    | SignIn(user: UserId)
    | Adjust(user: UserId, amount: int)
    | Buy(purchase: Purchase)
    | Renew(renewal: Renewal)
    | RefundStep(order: OrderId, chain: seq<OrderId>)
    | Deploy(deployment: OwnDeployment)
    | ExpireOrdersStep(instance: InstanceId)
    | FailOrdersStep(instance: InstanceId)

  datatype LifeStep =
    | Move(instance: InstanceId, from: Status, to: Status, runtime: Runtime)
    | LoadOperation(request: int, task: TaskId)
    | Reconcile(request: int)
    | LoadExpiry(request: int, instance: InstanceId)
    | Expire(request: int)
    | Plan(instance: InstanceId, seen: Instance)
    | LoadCancel(request: int, instance: InstanceId)
    | Cancel(request: int)
    | Waive(instance: InstanceId)
    | Schedule(task: TaskId, instance: InstanceId, purge: bool, at: Instant, runAfter: Instant)

  datatype Step = OfLease(a: LeaseStep) | OfDesk(d: DeskStep) | OfExec(x: ExecStep) | OfSaga(s: SagaStep)
                | OfRecon(r: ReconStep) | OfShop(h: ShopStep) | OfLife(l: LifeStep)

  // ---------- the queue ----------

  function ApplyLease(w: World, s: LeaseStep): World {
    match s
    case Tick(elapsed) => w.(db := Advance(w.db, elapsed))
    case AddNode(n, selfHosted) => w.(db := RegisterNode(w.db, n, selfHosted))
    case Claim(t, token) => ApplyClaim(w, t, token)
    case Reload(e) => ApplyReload(w, e)
    case RenewRow(e) => ApplyRenewRow(w, e)
    case RenewLock(e, ok) => ApplyRenewLock(w, e, ok)
    case Recover(t, seen, r) => ApplyRecover(w, t, seen, r)
    case Finish(e) => ApplyFinish(w, e)
    case Unlock(e) =>
      if Has(w, e) && w.execs[e].phase.Accepted?
      then SetPhase(w.(db := ReleaseInstanceLock(w.db, TicketOf(w.execs[e]))), e,
                    Unlocked(w.execs[e].phase.outcome, w.execs[e].phase.next)) else w
  }

  function ApplyDesk(w: World, s: DeskStep): World {
    match s
    case Quarantine(t) => w.(db := QuarantineFailed(w.db, t))
    case Retry(t) => w.(db := RetryFailed(w.db, t))
    case Resume(t) => w.(db := ResumeReview(w.db, t))
    case Discard(t, forGood) => ApplyDiscard(w, t, forGood)
    case ClearLocks(t) => w.(db := ClearLocksOf(w.db, t))
    case CancelTask(t) => w.(db := CancelQueued(w.db, t))
    case CloseOperation(t) => w.(db := CloseReconciled(w.db, t))
    case Revoke(n) => w.(db := RevokeNode(w.db, n))
    case SaveNode(n, enabled) => w.(db := SwitchNode(w.db, n, enabled))
    case Request(t, i, a, stamp) => w.(db := QueueAction(w.db, t, i, a, stamp))
  }

  /** The worker re-reads the row after its claim; by then the row may already be someone else's. */
  function ApplyReload(w: World, e: Token): World {
    if e in w.execs && w.execs[e].phase.Claimed? && w.execs[e].task in w.db.tasks
    then w.(execs := w.execs[e := w.execs[e].(ticket := Some(w.db.tasks[w.execs[e].task]), phase := Loaded)]) else w
  }

  function ApplyClaim(w: World, t: TaskId, token: Token): World {
    if !CanClaim(w.db, t, token) || token in w.execs then w
    else w.(db := ClaimTask(w.db, t, token),
            execs := w.execs[token := Exec(t, None, Claimed, Waiting, None, None)],
            latest := w.latest[w.db.tasks[t].instance := token])
  }

  function ApplyRenewRow(w: World, e: Token): World {
    if !Has(w, e) || !w.execs[e].renewal.Waiting? then w
    else
      var owns := OwnsLease(w.db, TicketOf(w.execs[e]));
      w.(db := RenewTaskLease(w.db, TicketOf(w.execs[e])),
         execs := w.execs[e := w.execs[e].(renewal := if owns then BetweenStatements else Ended)])
  }

  function ApplyRenewLock(w: World, e: Token, ok: bool): World {
    if !Has(w, e) || !w.execs[e].renewal.BetweenStatements? then w
    else w.(db := if ok then RenewInstanceLock(w.db, TicketOf(w.execs[e])) else w.db,
            execs := w.execs[e := w.execs[e].(renewal := Waiting)])
  }

  /** A resize that goes to review is reconciled at once, with the row as it was before the recovery. */
  function ApplyRecover(w: World, t: TaskId, seen: Status, r: int): World {
    if !LeaseExpired(w.db, t) || r in w.recons then w
    else
      var row := w.db.tasks[t];
      var recovered := w.(db := RecoverExpiredLease(w.db, t, seen));
      if row.action.Resize? && row.change.Some?
        then recovered.(recons := w.recons[r := Recon(t, row, row.change.value, Inspecting)])
      else recovered
  }

  function ApplyFinish(w: World, e: Token): World {
    if !Has(w, e) || !w.execs[e].phase.Returned? then w
    else
      var x := w.execs[e];
      if OwnsLease(w.db, TicketOf(x))
      then SetPhase(w.(db := FinishTask(w.db, TicketOf(x), x.phase.outcome)), e,
                    Accepted(x.phase.outcome, FinishedStatus(x.ticket.value, x.phase.outcome)))
      else SetPhase(w, e, Closed)
  }

  function ApplyDiscard(w: World, t: TaskId, forGood: bool): World {
    if t !in w.db.tasks || !(w.db.tasks[t].status == TaskReview || (forGood && w.db.tasks[t].status == TaskFailed))
      then w
    else w.(db := if forGood then DiscardForGood(w.db, t) else DiscardReview(w.db, t), discarded := w.discarded + {t})
  }

  // ---------- executions ----------

  function ApplyExec(w: World, s: ExecStep): World {
    match s
    case ReadInstance(e) => ApplyReadInstance(w, e)
    case Fence(e) =>
      if !Has(w, e) || !(w.execs[e].phase in {Loaded, Planned, Cleared, Applied}) || w.execs[e].seen.None? then w
      else if MayCallAgent(w.db, TicketOf(w.execs[e]), FenceStates(w.execs[e])) then SetPhase(w, e, Cleared)
      else SetPhase(w, e, Returned(Fails))
    case CallAgent(e, outcome) =>
      if !CanCallAgent(w, e) then w
      else SetPhase(w, e, if outcome.Succeeds? then Applied else Returned(outcome))
    case ReturnApplied(e, ok) =>
      if Has(w, e) && w.execs[e].phase.Applied? && w.execs[e].ticket.value.action.HostAccess?
      then SetPhase(w, e, Returned(if ok then Succeeds else Fails)) else w
    case Report(e) => ApplyReport(w, e)
    case ReadPlan(e) => ApplyReadPlan(w, e)
    case CommitDestroy(e) =>
      if Has(w, e) && w.execs[e].phase.Applied? && w.execs[e].ticket.value.action.Destroy? && w.execs[e].plan.Some?
      then CommitWith(w, e, WriteDestroyed(w.db, TicketOf(w.execs[e]), w.execs[e].plan.value),
                      CanWriteDestroyed(w.db, TicketOf(w.execs[e]), w.execs[e].plan.value)) else w
    case CommitPurge(e) =>
      if Has(w, e) && w.execs[e].phase.Applied? && w.execs[e].ticket.value.action.Purge?
      then CommitWith(w, e, WritePurged(w.db, TicketOf(w.execs[e])), CanWritePurged(w.db, TicketOf(w.execs[e]))) else w
  }

  function CommitWith(w: World, e: Token, db: Db, committed: bool): (v: World)
    requires e in w.execs && !w.execs[e].phase.Claimed?
    ensures SameTickets(w.execs, v.execs) && SameRenewals(w.execs, v.execs) && v.db == db
  {
    SetPhase(w.(db := db), e, Returned(if committed then Succeeds else Fails))
  }

  /** The execution reads its instance; it goes by this status until its end. */
  function ApplyReadInstance(w: World, e: Token): World {
    if !Has(w, e) || !w.execs[e].phase.Loaded? || w.execs[e].seen.Some? then w
    else
      var i := w.execs[e].ticket.value.instance;
      if i in w.db.instances then w.(execs := w.execs[e := w.execs[e].(seen := Some(w.db.instances[i].status))])
      else SetPhase(w, e, Returned(Fails))
  }

  /** What the fence expects; a reinstall's second check expects the very status that was read. */
  function FenceStates(x: Exec): set<Status>
    requires x.ticket.Some?
  {
    if x.ticket.value.action.Reinstall? && x.plan.Some? && x.seen.Some? then {x.seen.value}
    else ExpectedStates(x.ticket.value.action)
  }

  /** A request leaves only after a fence check, and for some actions only with a read before that check. */
  predicate CanCallAgent(w: World, e: Token) {
    Has(w, e) && w.execs[e].phase.Cleared?
    && (w.execs[e].ticket.value.action in {Destroy, Purge, Reinstall} ==> w.execs[e].plan.Some?)
  }

  /** Only a reinstall insists that its conditional write matched; deployments and starts activate orders next. */
  function ReportedPhase(a: Action, seen: Status, changed: bool): Phase {
    if !MayReport(a, seen) then Returned(Fails)
    else if changed && (a.Create? || a.RetryDeploy? || a.Start?) then Transitioned
    else if !changed && a.Reinstall? then Returned(Fails)
    else Returned(Succeeds)
  }

  function ApplyReport(w: World, e: Token): (v: World)
    ensures SameTickets(w.execs, v.execs) && SameRenewals(w.execs, v.execs)
  {
    if !Has(w, e) || !w.execs[e].phase.Applied? || w.execs[e].seen.None? || !Reports(w.execs[e].ticket.value.action)
      then w
    else
      var i, a, seen := w.execs[e].ticket.value.instance, w.execs[e].ticket.value.action, w.execs[e].seen.value;
      SetPhase(w.(db := ReportRuntime(w.db, i, a, seen)), e, ReportedPhase(a, seen, CanReport(w.db, i, a, seen)))
  }

  function ApplyReadPlan(w: World, e: Token): World {
    if !Has(w, e) || !w.execs[e].phase.Cleared? || w.execs[e].plan.Some? then w
    else
      var tk := TicketOf(w.execs[e]);
      if tk.row.action.Destroy? then
        var plan := PlanInForce(w.db, tk);
        var phase := if plan.Some? then Planned else Returned(Succeeds);
        w.(execs := w.execs[e := w.execs[e].(plan := plan, phase := phase)])
      else if tk.row.action.Purge? then
        if PurgeDue(w.db, tk.row.instance)
        then w.(execs := w.execs[e := w.execs[e].(plan := Some(w.db.now), phase := Planned)])
        else SetPhase(w, e, Returned(Succeeds))
      else if tk.row.action.Reinstall? then
        w.(execs := w.execs[e := w.execs[e].(plan := Some(w.db.now), phase := Planned)])
      else w
  }

  // ---------- the saga ----------

  function ApplySaga(w: World, s: SagaStep): World {
    match s
    case Open(p) => w.(db := OpenChange(w.db, p))
    case RequestCompensation(c, t) => w.(db := RequestCancel(w.db, c, t))
    case SettleExec(e, ids) => ApplySettleExec(w, e, ids)
    case CompensateExec(e) => ApplyCompensateExec(w, e)
    case BlockExec(e) =>
      if Has(w, e) && w.execs[e].phase.Unsettled?
        then SetPhase(Block(w, w.execs[e].ticket.value.change), e, Returned(Fails)) else w
    case MarkObserving(e) =>
      if !Has(w, e) || !w.execs[e].phase.Unlocked? then w
      else
        var marked := if MarksChange(w.execs[e]) then Block(w, w.execs[e].ticket.value.change) else w;
        SetPhase(marked, e, Marked(w.execs[e].phase.outcome))
    case FailDeployment(e) =>
      if !Has(w, e) || !w.execs[e].phase.Marked? then w
      else if FailsChange(w.execs[e]) then
        SetPhase(w.(db := FailChange(w.db, w.execs[e].ticket.value.change.value)), e, Closed)
      else SetPhase(w, e, Closed)
    case SettleDiscarded(t) =>
      if t !in w.discarded || t !in w.db.tasks || w.db.tasks[t].change.None? then w
      else if w.db.tasks[t].action.Resize? then w.(db := FailChange(w.db, w.db.tasks[t].change.value))
      else if w.db.tasks[t].action.CompensateResize? then Block(w, w.db.tasks[t].change)
      else w
    case ActivateExec(e) =>
      if !Has(w, e) || !w.execs[e].phase.Transitioned? then w
      else SetPhase(w.(db := ActivateOrders(w.db, w.execs[e].ticket.value.instance)), e, Returned(Succeeds))
  }

  function ApplySettleExec(w: World, e: Token, ids: seq<OrderId>): World {
    if !Has(w, e) || !w.execs[e].phase.Applied? || !w.execs[e].ticket.value.action.Resize? then w
    else
      var r := CompletePlanChange(w.db, TicketOf(w.execs[e]), ids);
      if r.Rejected? then SetPhase(w, e, Unsettled)
      else SetPhase(w.(db := if r.Committed? then r.db else w.db), e, Returned(Succeeds))
  }

  function ApplyCompensateExec(w: World, e: Token): World {
    if !Has(w, e) || !w.execs[e].phase.Applied? || !w.execs[e].ticket.value.action.CompensateResize? then w
    else
      var tk := TicketOf(w.execs[e]);
      if tk.row.change.Some? && CanCompensate(w.db, tk, tk.row.change.value)
      then SetPhase(w.(db := CompleteCompensation(w.db, tk)), e, Returned(Succeeds))
      else SetPhase(w, e, Unsettled)
  }

  /** A finished resize that went to review blocks its change, before anything else happens to it. */
  predicate MarksChange(x: Exec) {
    x.ticket.Some? && x.phase.Unlocked? && x.ticket.value.action.Resize? && x.phase.next == TaskReview
  }

  function Block(w: World, c: Option<ChangeId>): (v: World)
    ensures v.execs == w.execs && v.recons == w.recons && v.latest == w.latest
  {
    if c.Some? then w.(db := MarkBlocked(w.db, c.value)) else w
  }

  /** The exhausted-retry path: a finished, failed resize whose attempts are used up. */
  predicate FailsChange(x: Exec) {
    x.ticket.Some? && x.phase.Marked? && !x.phase.outcome.Succeeds?
    && x.ticket.value.action.Resize? && x.ticket.value.attempts >= MAX_ATTEMPTS && x.ticket.value.change.Some?
  }

  predicate CanStartRecon(db: Db, t: TaskId) {
    t in db.tasks && db.tasks[t].action.Resize? && db.tasks[t].status == TaskReview && db.tasks[t].change.Some?
    && db.tasks[t].change.value in db.changes && db.changes[db.tasks[t].change.value].status == InReview
  }

  function ApplyRecon(w: World, s: ReconStep): World {
    match s
    case StartRecon(r, t) =>
      if r in w.recons || !CanStartRecon(w.db, t) then w
      else w.(recons := w.recons[r := Recon(t, w.db.tasks[t], w.db.tasks[t].change.value, Inspecting)])
    case Inspect(r, seen) => ApplyInspect(w, r, seen)
    case Decide(r) => ApplyDecide(w, r)
    case SettleRecon(r, ids) => ApplySettleRecon(w, r, ids)
    case BlockRecon(r) =>
      if r in w.recons && w.recons[r].phase.SettleFailed?
      then SetRecon(Block(w, Some(w.recons[r].change)), r, ReconDone) else w
    case CloseRecon(r) =>
      if r in w.recons && w.recons[r].phase.Closing?
      then SetRecon(w.(db := CloseReviewed(w.db, w.recons[r].task, w.recons[r].phase.settled)), r, Unlocking) else w
    case UnlockRecon(r) =>
      if r in w.recons && w.recons[r].phase.Unlocking?
      then SetRecon(w.(db := ReleaseInstanceLock(w.db, Ticket(w.recons[r].task, w.recons[r].row))), r, ReconDone) else w
  }

  function SetRecon(w: World, r: int, phase: ReconPhase): (v: World)
    requires r in w.recons
    ensures SameRows(w.recons, v.recons)
  {
    w.(recons := w.recons[r := w.recons[r].(phase := phase)])
  }

  /** None is an unreachable node: the change stays blocked. */
  function ApplyInspect(w: World, r: int, seen: Option<Resources>): World {
    if r !in w.recons || !w.recons[r].phase.Inspecting? then w
    else if seen.None? then SetRecon(Block(w, Some(w.recons[r].change)), r, ReconDone)
    else SetRecon(w.(db := RecordObservation(w.db, w.recons[r].change, seen.value)), r, Saw(seen.value))
  }

  function ApplyDecide(w: World, r: int): World {
    if r !in w.recons || !w.recons[r].phase.Saw? || w.recons[r].change !in w.db.changes then w
    else
      var c := w.recons[r].change;
      var seen := w.recons[r].phase.seen;
      if seen != w.db.changes[c].target && seen != w.db.changes[c].source then SetRecon(Block(w, Some(c)), r, ReconDone)
      else if Resumable(w.db, c) then SetRecon(w.(db := ResumeBlocked(w.db, c)), r, Resumed(seen))
      else SetRecon(w, r, ReconDone)
  }

  function ApplySettleRecon(w: World, r: int, ids: seq<OrderId>): World {
    if r !in w.recons || !w.recons[r].phase.Resumed? || w.recons[r].change !in w.db.changes then w
    else
      var c := w.recons[r].change;
      if w.recons[r].phase.seen == w.db.changes[c].target then
        var done := CompletePlanChange(w.db, Ticket(w.recons[r].task, w.recons[r].row), ids);
        if done.Rejected? then SetRecon(w, r, SettleFailed)
        else SetRecon(w.(db := if done.Committed? then done.db else w.db), r, Closing(true))
      else SetRecon(w.(db := FailChange(w.db, c)), r, Closing(false))
  }

  // ---------- shop and lifecycle ----------

  function ApplyShop(w: World, s: ShopStep): World {
    w.(db := match s
       case SignIn(user) => OpenWallet(w.db, user)
       case Adjust(user, amount) => AdjustWallet(w.db, user, amount)
       case Buy(p) => PurchaseWithWallet(w.db, p)
       case Renew(r) => RenewWithWallet(w.db, r)
       case RefundStep(o, chain) => RefundOrder(w.db, o, chain)
       case Deploy(d) => DeployOwn(w.db, d)
       case ExpireOrdersStep(i) => ExpireOrders(w.db, i)
       case FailOrdersStep(i) => FailOrders(w.db, i))
  }

  function ApplyLife(w: World, s: LifeStep): World {
    match s
    case Move(i, from, to, runtime) => w.(db := RuntimeMove(w.db, i, from, to, runtime))
    case LoadOperation(r, t) =>
      if r in w.views || !InDoubt(w.db, t) then w
      else w.(views := w.views[r := OperationView(t, w.db.instances[w.db.tasks[t].instance].status)])
    case Reconcile(r) =>
      if r in w.views && w.views[r].OperationView?
        then w.(db := FinalizeReconciled(w.db, w.views[r].task, w.views[r].lifecycle)) else w
    case LoadExpiry(r, i) =>
      if r in w.views || !ServiceEnded(w.db, i) then w
      else w.(views := w.views[r := ExpiryView(i, w.db.instances[i].status)])
    case Expire(r) =>
      if r in w.views && w.views[r].ExpiryView?
      then w.(db := ExpireInstance(w.db, w.views[r].expiring, w.views[r].status)) else w
    case Plan(i, seen) => w.(db := PlanDestroy(w.db, i, seen))
    case LoadCancel(r, i) =>
      if r in w.views || !MayCancelDestroy(w.db, i) then w
      else w.(views := w.views[r := CancelView(i, w.db.instances[i].runtime)])
    case Cancel(r) =>
      if r in w.views && w.views[r].CancelView?
        then w.(db := CommitCancel(w.db, w.views[r].instance, w.views[r].runtime)) else w
    case Waive(i) => w.(db := WaiveRefund(w.db, i))
    case Schedule(t, i, purge, at, runAfter) => w.(db := ScheduleLifecycleTask(w.db, t, i, purge, at, runAfter))
  }

  function Apply(w: World, s: Step): World {
    match s
    case OfLease(a) => ApplyLease(w, a)
    case OfDesk(d) => ApplyDesk(w, d)
    case OfExec(x) => ApplyExec(w, x)
    case OfSaga(g) => ApplySaga(w, g)
    case OfRecon(r) => ApplyRecon(w, r)
    case OfShop(h) => ApplyShop(w, h)
    case OfLife(l) => ApplyLife(w, l)
  }

  function Run(w: World, steps: seq<Step>): World
    decreases |steps|
  {
    if steps == [] then w else Run(Apply(w, steps[0]), steps[1..])
  }

  lemma RunAppend(w: World, a: seq<Step>, b: seq<Step>)
    ensures Run(w, a + b) == Run(Run(w, a), b)
    decreases |a|
  {
    if a == [] {
      assert a + b == b;
    } else {
      hide Apply;
      assert (a + b)[0] == a[0] && (a + b)[1..] == a[1..] + b;
      RunAppend(Apply(w, a[0]), a[1..], b);
    }
  }
}
