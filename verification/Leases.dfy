/**
 Counting over runs: accepted outcomes, lock extensions left behind, and claims of lost work.
 */
module Leases {
  import opened Schema
  import opened Evolution
  import opened TaskQueue
  import opened Lifecycle
  import opened Commerce
  import opened PlanChange
  import opened World
  import opened History
  import opened Fencing
  import opened SagaRuns

  // ---------- one accepted outcome per token ----------

  /** The step is a finish that the database accepts on the strength of this token. */
  predicate Accepts(w: World, s: Step, token: Token) {
    s.OfLease? && s.a.Finish? && Has(w, s.a.exec)
    && var x := w.execs[s.a.exec];
       x.phase.Returned? && x.ticket.value.lease.Some? && x.ticket.value.lease.value.token == token
       && OwnsLease(w.db, TicketOf(x))
  }

  function AcceptedOutcomes(w: World, steps: seq<Step>, token: Token): int
    decreases |steps|
  {
    if steps == [] then 0
    else (if Accepts(w, steps[0], token) then 1 else 0) + AcceptedOutcomes(Apply(w, steps[0]), steps[1..], token)
  }

  lemma AcceptRetiresToken(w: World, s: Step, token: Token)
    requires FenceInv(w) && Accepts(w, s, token)
    ensures token in w.db.tokens && !Alive(Apply(w, s).db, w.db.tokens[token], token)
  {
  }

  lemma LostTokenNeverAccepts(w: World, s: Step, token: Token)
    requires FenceInv(w) && token in w.db.tokens && !Alive(w.db, w.db.tokens[token], token)
    ensures !Accepts(w, s, token)
    ensures var v := Apply(w, s).db;
            token in v.tokens && v.tokens[token] == w.db.tokens[token] && !Alive(v, v.tokens[token], token)
  {
    StepEvolves(w, s);
    hide Apply;
  }

  lemma {:induction false} LostTokenOutcomes(w: World, steps: seq<Step>, token: Token)
    requires FenceInv(w) && token in w.db.tokens && !Alive(w.db, w.db.tokens[token], token)
    ensures AcceptedOutcomes(w, steps, token) == 0
    decreases |steps|
  {
    hide Apply, FenceInv, Accepts;
    if steps != [] {
      LostTokenNeverAccepts(w, steps[0], token);
      StepKeepsFence(w, steps[0]);
      LostTokenOutcomes(Apply(w, steps[0]), steps[1..], token);
    }
  }

  /** Each token yields at most one accepted outcome, whatever happens in between. */
  lemma {:induction false} OneOutcomePerToken(w: World, steps: seq<Step>, token: Token)
    requires FenceInv(w)
    ensures 0 <= AcceptedOutcomes(w, steps, token) <= 1
    decreases |steps|
  {
    hide Apply, FenceInv, Accepts;
    if steps != [] {
      var v := Apply(w, steps[0]);
      StepKeepsFence(w, steps[0]);
      if Accepts(w, steps[0], token) {
        AcceptRetiresToken(w, steps[0], token);
        StepEvolves(w, steps[0]);
        LostTokenOutcomes(v, steps[1..], token);
      } else {
        OneOutcomePerToken(v, steps[1..], token);
      }
    }
  }

  // ---------- locks left behind ----------

  /** The step is the second half of a renewal and changes the lock. */
  predicate Extends(w: World, s: Step, e: Token) {
    s.OfLease? && s.a.RenewLock? && s.a.exec == e && ApplyLease(w, s.a).db != w.db
  }

  function Extensions(w: World, steps: seq<Step>, e: Token): int
    decreases |steps|
  {
    if steps == [] then 0
    else (if Extends(w, steps[0], e) then 1 else 0) + Extensions(Apply(w, steps[0]), steps[1..], e)
  }

  /** The execution's token no longer holds a lease. */
  predicate Retired(w: World, e: Token) {
    Has(w, e) && !w.execs[e].phase.Claimed? && w.execs[e].ticket.value.lease.Some?
    && w.execs[e].ticket.value.lease.value.token in w.db.tokens
    && !Alive(w.db, w.execs[e].task, w.execs[e].ticket.value.lease.value.token)
  }

  function Allowance(w: World, e: Token): int
    requires Has(w, e)
  {
    if w.execs[e].renewal.BetweenStatements? then 1 else 0
  }

  lemma LeaseAllowance(w: World, s: LeaseStep, e: Token)
    requires Retired(w, e)
    ensures Has(ApplyLease(w, s), e)
    ensures var v := ApplyLease(w, s);
            v.execs[e].task == w.execs[e].task && v.execs[e].ticket == w.execs[e].ticket && !v.execs[e].phase.Claimed?
            && (if Extends(w, OfLease(s), e) then 1 else 0) + Allowance(v, e) <= Allowance(w, e)
  {
    hide Evolves, RecoverExpiredLease, FinishTask, ReleaseInstanceLock, ClaimTask;
  }

  lemma StepAllowance(w: World, s: Step, e: Token)
    requires Retired(w, e)
    ensures var v := Apply(w, s);
            Retired(v, e) && (if Extends(w, s, e) then 1 else 0) + Allowance(v, e) <= Allowance(w, e)
  {
    StepEvolves(w, s);
    if s.OfLease? {
      LeaseAllowance(w, s.a, e);
    } else {
      OthersAllowance(w, s, e);
    }
    hide ApplyLease, ApplyDesk, ApplyExec, ApplySaga, ApplyRecon, ApplyShop, ApplyLife, Evolves, HasLockToken;
  }

  lemma OthersAllowance(w: World, s: Step, e: Token)
    requires Retired(w, e) && !s.OfLease?
    ensures Has(Apply(w, s), e)
    ensures var v := Apply(w, s);
            v.execs[e].task == w.execs[e].task && v.execs[e].ticket == w.execs[e].ticket && !v.execs[e].phase.Claimed?
            && Allowance(v, e) == Allowance(w, e)
  {
    hide ApplyDesk, ApplyExec, ApplySaga, ApplyRecon, ApplyShop, ApplyLife;
    match s
    case OfDesk(d) => DeskKeepsTickets(w, d);
    case OfExec(x) => ExecKeepsTickets(w, x);
    case OfSaga(g) => SagaKeepsTickets(w, g);
    case OfRecon(r) => if r.StartRecon? { StartReconExecs(w, r); } else { ReconKeepsTickets(w, r); }
    case _ => ShopLifeKeepTickets(w, s);
  }

  lemma StartReconExecs(w: World, s: ReconStep)
    requires s.StartRecon?
    ensures ApplyRecon(w, s).execs == w.execs
  {
  }

  /** Once a token is retired, its renew loop extends the lock it left behind at most once more. */
  lemma {:induction false} OrphanedLockExtensions(w: World, steps: seq<Step>, e: Token)
    requires Retired(w, e)
    ensures 0 <= Extensions(w, steps, e) <= Allowance(w, e)
    decreases |steps|
  {
    hide Apply, Extends, Retired;
    if steps != [] {
      StepAllowance(w, steps[0], e);
      OrphanedLockExtensions(Apply(w, steps[0]), steps[1..], e);
    }
  }

  // ---------- leases that are renewed in time ----------

  /** Lease and lock of the execution's token are in force, and its renew loop is waiting for its next round. */
  ghost predicate Renewing(w: World, e: Token) {
    Has(w, e) && w.execs[e].renewal.Waiting? && OwnsLease(w.db, TicketOf(w.execs[e]))
    && HoldsLock(w.db, TicketOf(w.execs[e]))
  }

  /** Both statements of the renew loop, then a wait. */
  function Rounds(e: Token, waits: seq<nat>): seq<Step> {
    if waits == [] then []
    else [OfLease(RenewRow(e)), OfLease(RenewLock(e, true)), OfLease(Tick(waits[0]))] + Rounds(e, waits[1..])
  }

  lemma RowRenewed(w: World, e: Token)
    requires Renewing(w, e)
    ensures var v := Apply(w, OfLease(RenewRow(e)));
            var tk := TicketOf(w.execs[e]);
            && Has(v, e) && TicketOf(v.execs[e]) == tk && v.execs[e].renewal.BetweenStatements? && v.db.now == w.db.now
            && OwnsLease(v.db, tk) && HasLockToken(v.db, tk)
            && v.db.tasks[tk.id].lease.value.expires == w.db.now + 5 * 60 * 1_000_000_000
  {
    hide QueueOnly;
  }

  lemma LockRenewed(w: World, e: Token)
    requires Has(w, e) && w.execs[e].renewal.BetweenStatements?
    requires OwnsLease(w.db, TicketOf(w.execs[e])) && HasLockToken(w.db, TicketOf(w.execs[e]))
    ensures var v := Apply(w, OfLease(RenewLock(e, true)));
            var tk := TicketOf(w.execs[e]);
            && Has(v, e) && TicketOf(v.execs[e]) == tk && v.execs[e].renewal.Waiting? && v.db.now == w.db.now
            && v.db.tasks == w.db.tasks && HoldsLock(v.db, tk)
            && v.db.instances[tk.row.instance].lock.value.expires == w.db.now + 5 * 60 * 1_000_000_000
  {
    hide QueueOnly;
  }

  /** A round and a wait of less than five minutes leave the worker as it was. */
  lemma RoundKeeps(w: World, e: Token, wait: nat)
    requires Renewing(w, e) && wait < 5 * 60 * 1_000_000_000
    ensures var a := Apply(w, OfLease(RenewRow(e)));
            var v := Apply(Apply(a, OfLease(RenewLock(e, true))), OfLease(Tick(wait)));
            Renewing(v, e) && TicketOf(v.execs[e]) == TicketOf(w.execs[e])
  {
    RowRenewed(w, e);
    LockRenewed(Apply(w, OfLease(RenewRow(e))), e);
    Ticked(Apply(Apply(w, OfLease(RenewRow(e))), OfLease(RenewLock(e, true))), wait);
    hide Apply, HasLockToken;
  }

  lemma Ticked(w: World, wait: nat)
    ensures Apply(w, OfLease(Tick(wait))) == w.(db := w.db.(now := w.db.now + wait))
  {
    hide QueueOnly;
  }

  /** A worker that renews before five minutes are over keeps lease and lock, for any number of rounds. */
  lemma {:induction false} RenewingKeepsTheLease(w: World, e: Token, waits: seq<nat>)
    requires Renewing(w, e) && forall k :: 0 <= k < |waits| ==> waits[k] < 5 * 60 * 1_000_000_000
    ensures var v := Run(w, Rounds(e, waits));
            Renewing(v, e) && TicketOf(v.execs[e]) == TicketOf(w.execs[e])
    decreases |waits|
  {
    hide Apply, OwnsLease, HoldsLock;
    if waits != [] {
      var row, lock, tick := OfLease(RenewRow(e)), OfLease(RenewLock(e, true)), OfLease(Tick(waits[0]));
      var rest := Rounds(e, waits[1..]);
      RoundKeeps(w, e, waits[0]);
      var v := Apply(Apply(Apply(w, row), lock), tick);
      RenewingKeepsTheLease(v, e, waits[1..]);
      assert Rounds(e, waits) == [row, lock, tick] + rest;
      RunAppend(w, [row, lock, tick], rest);
      ThreeSteps(w, row, lock, tick);
    }
  }

  lemma ThreeSteps(w: World, a: Step, b: Step, c: Step)
    ensures Run(w, [a, b, c]) == Apply(Apply(Apply(w, a), b), c)
  {
    hide Apply;
    assert [a, b, c][1..] == [b, c] && [b, c][1..] == [c] && [c][1..] == [];
    assert Run(Apply(w, a), [b, c]) == Run(Apply(Apply(w, a), b), [c]);
    assert Run(Apply(Apply(w, a), b), [c]) == Run(Apply(Apply(Apply(w, a), b), c), []);
  }

  // ---------- workers that lost their lease ----------

  /** The execution's outcome was accepted; it goes on to unlock, to block its change or to fail it. */
  predicate Ending(w: World, e: Token) {
    e in w.execs && (w.execs[e].phase.Accepted? || w.execs[e].phase.Unlocked? || w.execs[e].phase.Marked?)
  }

  ghost predicate EndsBy(w: World, s: Step, v: World) {
    forall e :: Ending(v, e) ==>
      Ending(w, e) || (s == OfLease(Finish(e)) && Has(w, e) && OwnsLease(w.db, TicketOf(w.execs[e])))
  }

  lemma LeaseEndsBy(w: World, s: LeaseStep)
    ensures EndsBy(w, OfLease(s), ApplyLease(w, s))
  {
    hide QueueOnly, Evolves, LeaseExpired, OwnsLease, CanClaim, SameTickets, SameRenewals, FinishedStatus;
    hide Advance, RegisterNode, ClaimTask, RenewTaskLease, RenewInstanceLock, RecoverExpiredLease, FinishTask;
    hide ReleaseInstanceLock;
  }

  lemma ExecEndsBy(w: World, s: ExecStep)
    ensures EndsBy(w, OfExec(s), ApplyExec(w, s))
  {
    hide EvolvesQuietly, WriteDestroyed, WritePurged, CanWriteDestroyed, CanWritePurged, MayCallAgent, PurgeDue;
    hide PlanInForce, SameTickets, SameRenewals, ReportRuntime, CanReport, MayReport, FenceStates;
  }

  lemma SettleEndsBy(w: World, e: Token, ids: seq<OrderId>)
    ensures EndsBy(w, OfSaga(SettleExec(e, ids)), ApplySettleExec(w, e, ids))
    ensures EndsBy(w, OfSaga(CompensateExec(e)), ApplyCompensateExec(w, e))
  {
    hide BooksOnly, CompletePlanChange, CompleteCompensation, CanCompensate, SameTickets, SameRenewals;
  }

  lemma SagaEndsBy(w: World, s: SagaStep)
    ensures EndsBy(w, OfSaga(s), ApplySaga(w, s))
  {
    hide BooksOnly, OpenChange, RequestCancel, FailChange, Block, SameTickets, SameRenewals, FailsChange, MarksChange;
    hide ApplySettleExec, ApplyCompensateExec, ActivateOrders;
    match s
    case SettleExec(e, ids) => SettleEndsBy(w, e, ids);
    case CompensateExec(e) => SettleEndsBy(w, e, []);
    case _ =>
  }

  lemma StepEndsBy(w: World, s: Step)
    ensures EndsBy(w, s, Apply(w, s))
  {
    hide ApplyLease, ApplyDesk, ApplyExec, ApplySaga, ApplyRecon, ApplyShop, ApplyLife, OwnsLease;
    match s
    case OfLease(a) => LeaseEndsBy(w, a);
    case OfExec(x) => ExecEndsBy(w, x);
    case OfSaga(g) => SagaEndsBy(w, g);
    case OfDesk(d) => DeskExecs(w, d);
    case OfRecon(r) => ReconExecs(w, r);
    case OfLife(l) => LifeExecs(w, l);
    case OfShop(h) => ShopExecs(w, h);
  }

  /**
   A worker whose lease is gone before its outcome was accepted ends nothing in any run: it never
   releases the lock, blocks its change, or fails its change, whatever it was doing.
   */
  lemma {:induction false} LostWorkerEndsNothing(w: World, steps: seq<Step>, e: Token)
    requires Retired(w, e) && !Ending(w, e)
    ensures var v := Run(w, steps);
            !Ending(v, e) && Apply(v, OfLease(Unlock(e))) == v && Apply(v, OfSaga(MarkObserving(e))) == v
            && Apply(v, OfSaga(FailDeployment(e))) == v
    decreases |steps|
  {
    hide Apply, Retired, Ending;
    if steps == [] {
      NothingToEnd(w, e);
    } else {
      StepAllowance(w, steps[0], e);
      StepEndsBy(w, steps[0]);
      RetiredOwnsNothing(w, e);
      LostWorkerEndsNothing(Apply(w, steps[0]), steps[1..], e);
    }
  }

  lemma NothingToEnd(w: World, e: Token)
    requires !Ending(w, e)
    ensures Apply(w, OfLease(Unlock(e))) == w && Apply(w, OfSaga(MarkObserving(e))) == w
            && Apply(w, OfSaga(FailDeployment(e))) == w
  {
    hide BooksOnly, FailChange, Block, SameTickets, SameRenewals, FailsChange, MarksChange, ReleaseInstanceLock;
  }

  lemma RetiredOwnsNothing(w: World, e: Token)
    requires Retired(w, e)
    ensures Has(w, e) && !OwnsLease(w.db, TicketOf(w.execs[e]))
  {
  }

  // ---------- lost dangerous work ----------

  predicate Resumes(s: Step, t: TaskId) {
    s.OfDesk? && s.d.Resume? && s.d.task == t
  }

  lemma SidelinedStep(w: World, s: Step, t: TaskId)
    requires t in w.db.tasks && Sidelined(w.db.tasks[t], w.db.now) && !Resumes(s, t)
    ensures var v := Apply(w, s).db; t in v.tasks && Sidelined(v.tasks[t], v.now)
  {
    hide Apply, TasksEvolve, InstancesEvolve, ChangesEvolve, OrdersEvolve, LeasesKept, LocksKept, LinksKept;
    hide StatusesKept;
    if s.OfDesk? && s.d.Resume? {
      OtherResumed(w, s.d.task, t);
    } else {
      StepEvolves(w, s);
      StepKeepsSidelined(w, s);
    }
  }

  lemma OtherResumed(w: World, u: TaskId, t: TaskId)
    requires t in w.db.tasks && Sidelined(w.db.tasks[t], w.db.now) && u != t
    ensures var v := Apply(w, OfDesk(Resume(u))).db; t in v.tasks && Sidelined(v.tasks[t], v.now)
  {
    hide Evolves, Sidelined;
  }

  /** Dangerous work whose lease ran out is never claimed again in any run without a resume of it. */
  lemma {:induction false} LostWorkIsNeverClaimed(w: World, steps: seq<Step>, t: TaskId, token: Token)
    requires t in w.db.tasks && LeaseExpired(w.db, t)
    requires w.db.tasks[t].action in
               {Stop, Update, Restart, Reinstall, Destroy, Purge, RetryDeploy, Action.Resize, HostAccess}
    requires forall k :: 0 <= k < |steps| ==> !Resumes(steps[k], t)
    ensures var v := Run(w, steps).db;
            t in v.tasks && v.tasks[t].status != TaskPending && !CanClaim(v, t, token) && ClaimTask(v, t, token) == v
  {
    SidelinedRun(w, steps, t);
  }

  lemma {:induction false} SidelinedRun(w: World, steps: seq<Step>, t: TaskId)
    requires t in w.db.tasks && Sidelined(w.db.tasks[t], w.db.now)
    requires forall k :: 0 <= k < |steps| ==> !Resumes(steps[k], t)
    ensures var v := Run(w, steps).db; t in v.tasks && Sidelined(v.tasks[t], v.now)
    decreases |steps|
  {
    hide Apply, Sidelined;
    if steps != [] {
      SidelinedStep(w, steps[0], t);
      SidelinedRun(Apply(w, steps[0]), steps[1..], t);
    }
  }
}
