/**
 The fence over all runs: at most one token per instance, no token twice, no lost lease back.
 */
module Fencing {
  import opened Wrappers
  import opened Billing
  import opened Schema
  import opened Evolution
  import opened TaskQueue
  import opened Lifecycle
  import opened Commerce
  import opened PlanChange
  import opened World
  import opened History

  // ---------- what holds in every reachable state ----------

  ghost predicate TokensOk(db: Db) {
    && (forall t :: t in db.tasks ==> LeaseMatchesStatus(db.tasks[t]))
    && (forall t :: t in db.tasks && db.tasks[t].lease.Some? ==>
          db.tasks[t].lease.value.token in db.tokens && db.tokens[db.tasks[t].lease.value.token] == t)
    && (forall i :: i in db.instances && db.instances[i].lock.Some? ==>
          var lock := db.instances[i].lock.value;
          lock.token in db.tokens && db.tokens[lock.token] == lock.task && lock.task in db.tasks
          && db.tasks[lock.task].instance == i)
  }

  lemma EvolutionKeepsTokens(a: Db, b: Db)
    requires Evolves(a, b) && TokensOk(a)
    ensures TokensOk(b)
  {
  }

  /** A ticket is a copy of a row that existed: its token, if any, was issued for its task. */
  ghost predicate TicketOk(db: Db, id: TaskId, row: Task) {
    id in db.tasks && SameTaskFacts(row, db.tasks[id])
    && (row.lease.Some? ==> row.lease.value.token in db.tokens && db.tokens[row.lease.value.token] == id)
  }

  lemma TicketStays(a: Db, b: Db, id: TaskId, row: Task)
    requires Evolves(a, b) && TicketOk(a, id, row)
    ensures TicketOk(b, id, row)
  {
  }

  ghost predicate ExecsOk(w: World) {
    forall e :: e in w.execs ==>
      e in w.db.tokens && w.execs[e].task in w.db.tasks
      && (w.execs[e].ticket.Some? ==> TicketOk(w.db, w.execs[e].task, w.execs[e].ticket.value))
      && (!w.execs[e].phase.Claimed? ==> w.execs[e].ticket.Some?)
  }

  ghost predicate ReconsOk(w: World) {
    forall r :: r in w.recons ==>
      (TicketOk(w.db, w.recons[r].task, w.recons[r].row)
       && w.recons[r].row.change == Some(w.recons[r].change) && w.recons[r].row.action.Resize?)
  }

  /** Every lock carries the token of the instance's latest successful claim. */
  ghost predicate LatestOk(w: World) {
    && (forall i :: i in w.db.instances && w.db.instances[i].lock.Some? ==>
          i in w.latest && w.latest[i] == w.db.instances[i].lock.value.token)
    && (forall i :: i in w.latest ==> w.latest[i] in w.db.tokens)
  }

  ghost predicate FenceInv(w: World) {
    TokensOk(w.db) && ExecsOk(w) && ReconsOk(w) && LatestOk(w)
  }

  // ---------- every step keeps it ----------

  /** Nothing about tickets, reconcile rows or claims changes. */
  ghost predicate SameTicketing(w: World, v: World) {
    SameTickets(w.execs, v.execs) && SameRows(w.recons, v.recons) && w.latest == v.latest
  }

  lemma LeaseKeepsTickets(w: World, s: LeaseStep)
    requires !s.Claim? && !s.Reload? && !s.Recover?
    ensures SameTicketing(w, ApplyLease(w, s)) && w.db.tokens == ApplyLease(w, s).db.tokens
  {
    hide Evolves, SidelinedKept, LifeKept, Advance, RegisterNode, RenewTaskLease, RenewInstanceLock, FinishTask;
    hide ReleaseInstanceLock, OwnsLease, HasLockToken;
  }

  lemma DeskKeepsTickets(w: World, s: DeskStep)
    ensures SameTicketing(w, ApplyDesk(w, s)) && SameRenewals(w.execs, ApplyDesk(w, s).execs)
  {
    hide Evolves, ClearLocksOf, RevokeNode, SwitchNode, QueueAction, RetryFailed, QuarantineFailed, ResumeReview;
    hide CancelQueued, CloseReconciled;
  }

  lemma ReadInstanceKeepsTickets(w: World, e: Token)
    ensures SameTicketing(w, ApplyReadInstance(w, e)) && SameRenewals(w.execs, ApplyReadInstance(w, e).execs)
  {
  }

  lemma ReadPlanKeepsTickets(w: World, e: Token)
    ensures SameTicketing(w, ApplyReadPlan(w, e)) && SameRenewals(w.execs, ApplyReadPlan(w, e).execs)
  {
    hide PurgeDue, PlanInForce;
  }

  lemma ReportKeepsRest(w: World, e: Token)
    ensures ApplyReport(w, e).recons == w.recons && ApplyReport(w, e).latest == w.latest
  {
    hide EvolvesQuietly, SameTickets, SameRenewals, ReportRuntime, CanReport, MayReport;
  }

  lemma NothingKeepsTickets(w: World)
    ensures SameTickets(w.execs, w.execs) && SameRenewals(w.execs, w.execs) && SameRows(w.recons, w.recons)
  {
  }

  lemma ExecKeepsTickets(w: World, s: ExecStep)
    ensures SameTicketing(w, ApplyExec(w, s)) && SameRenewals(w.execs, ApplyExec(w, s).execs)
  {
    hide Evolves, WriteDestroyed, WritePurged, MayCallAgent, CanWriteDestroyed, CanWritePurged, FenceStates;
    hide ApplyReadInstance, ApplyReadPlan, ApplyReport, SameTickets, SameRenewals, SameRows;
    ReadInstanceKeepsTickets(w, s.exec);
    ReadPlanKeepsTickets(w, s.exec);
    ReportKeepsRest(w, s.exec);
    NothingKeepsTickets(w);
  }

  lemma SagaKeepsTickets(w: World, s: SagaStep)
    ensures SameTicketing(w, ApplySaga(w, s)) && SameRenewals(w.execs, ApplySaga(w, s).execs)
  {
    hide Evolves, OpenChange, RequestCancel, CompletePlanChange, CompleteCompensation, FailChange, MarkBlocked;
  }

  lemma ReconKeepsTickets(w: World, s: ReconStep)
    requires !s.StartRecon?
    ensures SameTicketing(w, ApplyRecon(w, s)) && SameRenewals(w.execs, ApplyRecon(w, s).execs)
  {
    hide Evolves, CompletePlanChange, FailChange, MarkBlocked, ResumeBlocked, RecordObservation, CloseReviewed;
    hide ReleaseInstanceLock;
  }

  lemma ShopLifeKeepTickets(w: World, s: Step)
    requires s.OfShop? || s.OfLife?
    ensures SameTicketing(w, Apply(w, s)) && SameRenewals(w.execs, Apply(w, s).execs)
  {
    hide Evolves, OpenWallet, AdjustWallet, PurchaseWithWallet, RenewWithWallet, RefundOrder, ActivateOrders;
    hide ExpireOrders, FailOrders;
    hide RuntimeMove, FinalizeReconciled, ExpireInstance, PlanDestroy, CommitCancel, WaiveRefund, ScheduleLifecycleTask;
  }

  lemma TicketingKeepsFence(w: World, v: World)
    requires FenceInv(w) && Evolves(w.db, v.db) && w.db.tokens == v.db.tokens && SameTicketing(w, v)
    ensures FenceInv(v)
  {
    EvolutionKeepsTokens(w.db, v.db);
    forall e | e in v.execs && v.execs[e].ticket.Some?
      ensures TicketOk(v.db, v.execs[e].task, v.execs[e].ticket.value) {
      TicketStays(w.db, v.db, v.execs[e].task, v.execs[e].ticket.value);
    }
    forall r | r in v.recons ensures TicketOk(v.db, v.recons[r].task, v.recons[r].row) {
      TicketStays(w.db, v.db, v.recons[r].task, v.recons[r].row);
    }
  }

  lemma ClaimKeepsExecs(w: World, t: TaskId, token: Token)
    requires ExecsOk(w) && Evolves(w.db, ApplyClaim(w, t, token).db)
    ensures ExecsOk(ApplyClaim(w, t, token))
  {
    hide Evolves, TicketOk, LifeKept, SidelinedKept;
    var v := ApplyClaim(w, t, token);
    TicketsStay(w.db, v.db);
  }

  lemma TicketsStay(a: Db, b: Db)
    requires Evolves(a, b)
    ensures forall id, row :: TicketOk(a, id, row) ==> TicketOk(b, id, row)
    ensures forall id :: id in a.tasks ==> id in b.tasks
    ensures forall k :: k in a.tokens ==> k in b.tokens
  {
    forall id, row | TicketOk(a, id, row) ensures TicketOk(b, id, row) {
      TicketStays(a, b, id, row);
    }
  }

  lemma ClaimKeepsRecons(w: World, t: TaskId, token: Token)
    requires ReconsOk(w) && Evolves(w.db, ApplyClaim(w, t, token).db)
    ensures ReconsOk(ApplyClaim(w, t, token))
  {
    hide Evolves, TicketOk, LifeKept, SidelinedKept, ClaimTask;
    TicketsStay(w.db, ApplyClaim(w, t, token).db);
  }

  lemma ClaimKeepsLatest(w: World, t: TaskId, token: Token)
    requires LatestOk(w)
    ensures LatestOk(ApplyClaim(w, t, token))
  {
    hide Evolves, LifeKept, SidelinedKept;
  }

  lemma ClaimKeepsFence(w: World, t: TaskId, token: Token)
    requires FenceInv(w)
    ensures FenceInv(ApplyClaim(w, t, token))
  {
    hide Evolves, TokensOk, ExecsOk, ReconsOk, LatestOk;
    ClaimEvolves(w, t, token);
    EvolutionKeepsTokens(w.db, ApplyClaim(w, t, token).db);
    ClaimKeepsExecs(w, t, token);
    ClaimKeepsRecons(w, t, token);
    ClaimKeepsLatest(w, t, token);
  }

  lemma ClaimEvolves(w: World, t: TaskId, token: Token)
    ensures Evolves(w.db, ApplyClaim(w, t, token).db)
  {
    hide Evolves;
    EvolvesReflexive(w.db);
  }

  lemma ReloadKeepsFence(w: World, e: Token)
    requires FenceInv(w)
    ensures FenceInv(ApplyReload(w, e))
  {
  }

  lemma RecoverKeepsFence(w: World, t: TaskId, seen: Status, r: int)
    requires FenceInv(w)
    ensures FenceInv(ApplyRecover(w, t, seen, r))
  {
    var v := ApplyRecover(w, t, seen, r);
    if LeaseExpired(w.db, t) && r !in w.recons {
      var db := RecoverExpiredLease(w.db, t, seen);
      TicketingKeepsFence(w, w.(db := db));
      TicketStays(w.db, db, t, w.db.tasks[t]);
      hide TicketOk, Evolves, TokensOk;
    }
  }

  lemma StartReconKeepsFence(w: World, r: int, t: TaskId)
    requires FenceInv(w)
    ensures FenceInv(ApplyRecon(w, StartRecon(r, t)))
  {
  }

  lemma LeaseStepKeepsFence(w: World, s: LeaseStep)
    requires FenceInv(w)
    ensures FenceInv(ApplyLease(w, s))
  {
    hide FenceInv, Evolves, SidelinedKept, SameTicketing, ApplyClaim, ApplyReload, ApplyRecover;
    match s {
      case Claim(t, token) => ClaimKeepsFence(w, t, token);
      case Reload(e) => ReloadKeepsFence(w, e);
      case Recover(t, seen, r) => RecoverKeepsFence(w, t, seen, r);
      case _ =>
        LeaseEvolves(w, s);
        LeaseKeepsTickets(w, s);
        TicketingKeepsFence(w, ApplyLease(w, s));
    }
  }

  lemma StepKeepsFence(w: World, s: Step)
    requires FenceInv(w)
    ensures FenceInv(Apply(w, s))
  {
    hide FenceInv, Evolves, SidelinedKept, SameTicketing, ApplyLease, ApplyDesk, ApplyExec, ApplySaga, ApplyShop;
    hide ApplyLife;
    match s {
      case OfLease(a) => LeaseStepKeepsFence(w, a);
      case OfDesk(d) => DeskEvolves(w, d); DeskKeepsTickets(w, d); TicketingKeepsFence(w, Apply(w, s));
      case OfExec(x) => ExecEvolves(w, x); ExecKeepsTickets(w, x); TicketingKeepsFence(w, Apply(w, s));
      case OfSaga(g) => SagaEvolves(w, g); SagaKeepsTickets(w, g); TicketingKeepsFence(w, Apply(w, s));
      case OfRecon(r) => ReconStepKeepsFence(w, r);
      case OfShop(h) => ShopEvolves(w, h); ShopLifeKeepTickets(w, s); TicketingKeepsFence(w, Apply(w, s));
      case OfLife(l) => LifeEvolves(w, l); ShopLifeKeepTickets(w, s); TicketingKeepsFence(w, Apply(w, s));
    }
  }

  lemma ReconStepKeepsFence(w: World, s: ReconStep)
    requires FenceInv(w)
    ensures FenceInv(ApplyRecon(w, s))
  {
    hide FenceInv, Evolves, SidelinedKept, SameTicketing, ApplyRecon;
    if s.StartRecon? {
      StartReconKeepsFence(w, s.recon, s.task);
    } else {
      ReconEvolves(w, s);
      ReconKeepsTickets(w, s);
      TicketingKeepsFence(w, ApplyRecon(w, s));
    }
  }

  lemma {:induction false} RunKeepsFence(w: World, steps: seq<Step>)
    requires FenceInv(w)
    ensures FenceInv(Run(w, steps))
    decreases |steps|
  {
    hide FenceInv, Apply;
    if steps != [] {
      StepKeepsFence(w, steps[0]);
      RunKeepsFence(Apply(w, steps[0]), steps[1..]);
    }
  }

  // ---------- the fencing theorems ----------

  /** In every reachable state the Agent fence admits at most one token per instance: the latest claim's. */
  lemma FenceIsExclusive(now: Instant, steps: seq<Step>, a: Ticket, b: Ticket, expectedA: set<Status>,
                         expectedB: set<Status>)
    requires a.row.instance == b.row.instance
    requires MayCallAgent(Run(Genesis(now), steps).db, a, expectedA)
             && MayCallAgent(Run(Genesis(now), steps).db, b, expectedB)
    ensures a.id == b.id && a.row.lease.value.token == b.row.lease.value.token
    ensures var w := Run(Genesis(now), steps);
            a.row.instance in w.latest && a.row.lease.value.token == w.latest[a.row.instance]
  {
    assert FenceInv(Genesis(now));
    RunKeepsFence(Genesis(now), steps);
    hide Run;
  }

  /** The token is the row's token and has not run out. */
  predicate Alive(db: Db, t: TaskId, token: Token) {
    t in db.tasks && db.tasks[t].lease.Some? && db.tasks[t].lease.value.token == token
    && db.now < db.tasks[t].lease.value.expires
  }

  /** A token that lost its lease, by recovery, by finishing or by running out, never owns it again. */
  lemma LostLeaseStaysLost(w: World, steps: seq<Step>, tk: Ticket, expected: set<Status>, plan: Instant)
    requires tk.row.lease.Some? && tk.row.lease.value.token in w.db.tokens
    requires !Alive(w.db, tk.id, tk.row.lease.value.token)
    ensures var v := Run(w, steps).db;
            !Alive(v, tk.id, tk.row.lease.value.token) && !OwnsLease(v, tk) && !MayCallAgent(v, tk, expected)
            && FinishTask(v, tk, Succeeds) == v && RenewTaskLease(v, tk) == v
            && WriteDestroyed(v, tk, plan) == v && WritePurged(v, tk) == v
            && forall ids :: !CompletePlanChange(v, tk, ids).Committed?
  {
    RunEvolves(w, steps);
    hide Run, CompletePlanChange;
    forall ids ensures !CompletePlanChange(Run(w, steps).db, tk, ids).Committed? {
      SettlementNeedsItsLease(Run(w, steps).db, tk, ids);
    }
  }

  predicate LockedBy(db: Db, i: InstanceId, token: Token) {
    i in db.instances && db.instances[i].lock.Some? && db.instances[i].lock.value.token == token
  }

  /** A token whose instance lock was taken or cleared never passes the fence and commits nothing. */
  lemma LostLockStaysLost(w: World, steps: seq<Step>, tk: Ticket, expected: set<Status>, plan: Instant)
    requires tk.row.lease.Some? && tk.row.lease.value.token in w.db.tokens
    requires !LockedBy(w.db, tk.row.instance, tk.row.lease.value.token)
    ensures var v := Run(w, steps).db;
            !LockedBy(v, tk.row.instance, tk.row.lease.value.token) && !MayCallAgent(v, tk, expected)
            && WriteDestroyed(v, tk, plan) == v && WritePurged(v, tk) == v && RenewInstanceLock(v, tk) == v
            && forall ids :: !CompletePlanChange(v, tk, ids).Committed?
  {
    RunEvolves(w, steps);
    hide Run, CompletePlanChange;
    forall ids ensures !CompletePlanChange(Run(w, steps).db, tk, ids).Committed? {
      SettlementNeedsItsLease(Run(w, steps).db, tk, ids);
    }
  }

  // ---------- a lock in force ----------

  lemma TokensStay(w: World, s: Step)
    requires !(s.OfLease? && s.a.Claim?)
    ensures Apply(w, s).db.tokens == w.db.tokens
  {
    hide Evolves, SidelinedKept, ApplyLease, ApplyDesk, ApplyExec, ApplySaga, ApplyRecon, ApplyShop, ApplyLife;
    match s
    case OfLease(a) => LeaseTokensStay(w, a);
    case OfDesk(d) => DeskEvolves(w, d);
    case OfExec(x) => ExecEvolves(w, x);
    case OfSaga(g) => SagaEvolves(w, g);
    case OfRecon(r) => ReconEvolves(w, r);
    case OfShop(h) => ShopEvolves(w, h);
    case OfLife(l) => LifeEvolves(w, l);
  }

  lemma LeaseTokensStay(w: World, s: LeaseStep)
    requires !s.Claim?
    ensures ApplyLease(w, s).db.tokens == w.db.tokens
  {
    hide Evolves, SidelinedKept, LifeKept, Advance, RegisterNode, RenewTaskLease, RenewInstanceLock, FinishTask;
    hide ReleaseInstanceLock, RecoverExpiredLease, ClaimTask, OwnsLease, HasLockToken, LeaseExpired;
  }

  /** The instance's lock is in force. */
  predicate Locked(db: Db, i: InstanceId) {
    i in db.instances && db.instances[i].lock.Some? && db.now < db.instances[i].lock.value.expires
  }

  lemma LockIsNotTaken(w: World, s: Step, i: InstanceId)
    requires Locked(w.db, i)
    ensures var v := Apply(w, s).db;
            i in v.instances
            && (v.instances[i].lock.Some? ==>
                  v.instances[i].lock.value.token == w.db.instances[i].lock.value.token
                  && v.instances[i].lock.value.task == w.db.instances[i].lock.value.task)
  {
    if s.OfLease? && s.a.Claim? {
      hide Evolves, SidelinedKept, LifeKept;
    } else {
      StepEvolves(w, s);
      TokensStay(w, s);
      hide Apply, TasksEvolve, ChangesEvolve, OrdersEvolve, NodesEvolve, LeasesKept, LinksKept, StatusesKept;
    }
  }

  /** The lock is in force in every state of the run. */
  ghost predicate LockedThroughout(w: World, steps: seq<Step>, i: InstanceId)
    decreases |steps|
  {
    Locked(w.db, i) && (steps != [] ==> LockedThroughout(Apply(w, steps[0]), steps[1..], i))
  }

  /** While a lock is in force it stays its token's: it changes hands only after it was cleared or ran out. */
  lemma {:induction false} LockStaysWithItsToken(w: World, steps: seq<Step>, i: InstanceId)
    requires LockedThroughout(w, steps, i)
    ensures var v := Run(w, steps).db;
            i in v.instances && v.instances[i].lock.Some?
            && v.instances[i].lock.value.token == w.db.instances[i].lock.value.token
            && v.instances[i].lock.value.task == w.db.instances[i].lock.value.task
    decreases |steps|
  {
    hide Apply;
    if steps != [] {
      LockIsNotTaken(w, steps[0], i);
      LockStaysWithItsToken(Apply(w, steps[0]), steps[1..], i);
    }
  }
}
