/**
 Building blocks for concrete runs: what is reachable, and what single steps of an execution do.
 */
module Traces {
  import opened Wrappers
  import opened Billing
  import opened Schema
  import opened Evolution
  import opened TaskQueue
  import opened Lifecycle
  import opened Commerce
  import opened PlanChange
  import opened World

  /** Some run leads from one state to the other. */
  ghost predicate Reaches(w: World, v: World) {
    exists steps: seq<Step> :: Run(w, steps) == v
  }

  lemma Stays(w: World)
    ensures Reaches(w, w)
  {
    assert Run(w, []) == w;
  }

  lemma Then(w: World, v: World, s: Step)
    requires Reaches(w, v)
    ensures Reaches(w, Apply(v, s))
  {
    hide Apply;
    var steps: seq<Step> :| Run(w, steps) == v;
    RunAppend(w, steps, [s]);
    assert Run(v, [s]) == Run(Apply(v, s), []);
    assert Run(w, steps + [s]) == Apply(v, s);
  }

  lemma Onward(w: World, v: World, u: World)
    requires Reaches(w, v) && Reaches(v, u)
    ensures Reaches(w, u)
  {
    hide Apply;
    var first: seq<Step> :| Run(w, first) == v;
    var second: seq<Step> :| Run(v, second) == u;
    RunAppend(w, first, second);
    assert Run(w, first + second) == u;
  }

  // ---------- single steps, from anywhere ----------

  function WithPhase(w: World, e: Token, phase: Phase): World
    requires e in w.execs
  {
    w.(execs := w.execs[e := w.execs[e].(phase := phase)])
  }

  lemma ReadStep(w: World, e: Token)
    requires Has(w, e) && w.execs[e].phase.Loaded? && w.execs[e].seen.None?
    requires w.execs[e].ticket.value.instance in w.db.instances
    ensures Apply(w, OfExec(ReadInstance(e))) ==
            w.(execs := w.execs[e := w.execs[e].(seen :=
                                                 Some(w.db.instances[w.execs[e].ticket.value.instance].status))])
  {
  }

  lemma FenceStep(w: World, e: Token)
    requires Has(w, e) && w.execs[e].phase in {Loaded, Planned} && w.execs[e].seen.Some?
    requires MayCallAgent(w.db, TicketOf(w.execs[e]), FenceStates(w.execs[e]))
    ensures Apply(w, OfExec(Fence(e))) == WithPhase(w, e, Cleared)
  {
    hide MayCallAgent, FenceStates, SameTickets, SameRenewals;
  }

  lemma CallStep(w: World, e: Token, outcome: Outcome)
    requires CanCallAgent(w, e)
    ensures Apply(w, OfExec(CallAgent(e, outcome)))
            == WithPhase(w, e, if outcome.Succeeds? then Applied else Returned(outcome))
  {
    hide SameTickets, SameRenewals;
  }

  lemma ReportStep(w: World, e: Token)
    requires Has(w, e) && w.execs[e].phase.Applied? && w.execs[e].seen.Some? && Reports(w.execs[e].ticket.value.action)
    ensures var i, a, seen := w.execs[e].ticket.value.instance, w.execs[e].ticket.value.action, w.execs[e].seen.value;
            Apply(w, OfExec(Report(e))) ==
            WithPhase(w.(db := ReportRuntime(w.db, i, a, seen)), e, ReportedPhase(a, seen, CanReport(w.db, i, a, seen)))
  {
    hide SameTickets, SameRenewals, EvolvesQuietly, ReportRuntime, CanReport, ReportedPhase;
  }

  lemma ActivateStep(w: World, e: Token)
    requires Has(w, e) && w.execs[e].phase.Transitioned?
    ensures Apply(w, OfSaga(ActivateExec(e))) ==
            WithPhase(w.(db := ActivateOrders(w.db, w.execs[e].ticket.value.instance)), e, Returned(Succeeds))
  {
    hide SameTickets, SameRenewals, BooksOnly, ActivateOrders;
  }

  /** A destroy that finds its plan in force, or a reinstall that reads its resources. */
  lemma PlanStep(w: World, e: Token)
    requires Has(w, e) && w.execs[e].phase.Cleared? && w.execs[e].plan.None?
    requires var tk := TicketOf(w.execs[e]);
             tk.row.action.Reinstall? || (tk.row.action.Destroy? && PlanInForce(w.db, tk).Some?)
    ensures var tk := TicketOf(w.execs[e]);
            var plan := if tk.row.action.Destroy? then PlanInForce(w.db, tk) else Some(w.db.now);
            Apply(w, OfExec(ReadPlan(e))) == w.(execs := w.execs[e := w.execs[e].(plan := plan, phase := Planned)])
  {
    hide SameTickets, SameRenewals, PlanInForce;
  }

  lemma FinishStep(w: World, e: Token)
    requires Has(w, e) && w.execs[e].phase.Returned? && OwnsLease(w.db, TicketOf(w.execs[e]))
    ensures var x := w.execs[e];
            Apply(w, OfLease(Finish(e))) ==
            WithPhase(w.(db := FinishTask(w.db, TicketOf(x), x.phase.outcome)), e,
                      Accepted(x.phase.outcome, FinishedStatus(x.ticket.value, x.phase.outcome)))
  {
    hide SameTickets, SameRenewals, QueueOnly, FinishedStatus, FinishTask, OwnsLease;
  }

  lemma UnlockStep(w: World, e: Token)
    requires Has(w, e) && w.execs[e].phase.Accepted?
    ensures var x := w.execs[e];
            Apply(w, OfLease(Unlock(e))) ==
            WithPhase(w.(db := ReleaseInstanceLock(w.db, TicketOf(x))), e, Unlocked(x.phase.outcome, x.phase.next))
  {
    hide SameTickets, SameRenewals, QueueOnly, ReleaseInstanceLock;
  }

  lemma ResumeStep(w: World, t: TaskId)
    ensures Apply(w, OfDesk(Resume(t))) == w.(db := ResumeReview(w.db, t))
  {
    hide ResumeReview, Evolves;
  }

  lemma RequestStep(w: World, c: ChangeId, t: TaskId)
    ensures Apply(w, OfSaga(RequestCompensation(c, t))) == w.(db := RequestCancel(w.db, c, t))
  {
    hide RequestCancel, BooksOnly;
  }

  lemma OpenStep(w: World, p: Opening)
    ensures Apply(w, OfSaga(Open(p))) == w.(db := OpenChange(w.db, p))
  {
    hide OpenChange, BooksOnly;
  }

  lemma RefundedStep(w: World, o: OrderId, chain: seq<OrderId>)
    ensures Apply(w, OfShop(RefundStep(o, chain))) == w.(db := RefundOrder(w.db, o, chain))
  {
    hide RefundOrder, EvolvesQuietly;
  }

  lemma PlanningStep(w: World, i: InstanceId, seen: Instance)
    ensures Apply(w, OfLife(Plan(i, seen))) == w.(db := PlanDestroy(w.db, i, seen))
  {
    hide PlanDestroy, EvolvesQuietly;
  }

  lemma ScheduleStep(w: World, t: TaskId, i: InstanceId, purge: bool, at: Instant, runAfter: Instant)
    ensures Apply(w, OfLife(Schedule(t, i, purge, at, runAfter)))
            == w.(db := ScheduleLifecycleTask(w.db, t, i, purge, at, runAfter))
  {
    hide ScheduleLifecycleTask, EvolvesQuietly;
  }

  lemma LoadStep(w: World, r: int, i: InstanceId)
    requires r !in w.views && MayCancelDestroy(w.db, i)
    ensures Apply(w, OfLife(LoadCancel(r, i))) == w.(views := w.views[r := CancelView(i, w.db.instances[i].runtime)])
  {
    hide MayCancelDestroy;
  }

  lemma CancelStep(w: World, r: int)
    requires r in w.views && w.views[r].CancelView?
    ensures Apply(w, OfLife(Cancel(r))) == w.(db := CommitCancel(w.db, w.views[r].instance, w.views[r].runtime))
  {
    hide CommitCancel, EvolvesQuietly;
  }

  lemma LoadExpiryStep(w: World, r: int, i: InstanceId)
    requires r !in w.views && ServiceEnded(w.db, i)
    ensures Apply(w, OfLife(LoadExpiry(r, i))) == w.(views := w.views[r := ExpiryView(i, w.db.instances[i].status)])
  {
    hide ServiceEnded;
  }

  lemma ExpireStep(w: World, r: int)
    requires r in w.views && w.views[r].ExpiryView?
    ensures Apply(w, OfLife(Expire(r))) == w.(db := ExpireInstance(w.db, w.views[r].expiring, w.views[r].status))
  {
    hide ExpireInstance, EvolvesQuietly;
  }

  lemma RenewStep(w: World, r: Renewal)
    ensures Apply(w, OfShop(Renew(r))) == w.(db := RenewWithWallet(w.db, r))
  {
    hide RenewWithWallet, EvolvesQuietly;
  }

  lemma TickStep(w: World, elapsed: nat)
    ensures Apply(w, OfLease(Tick(elapsed))) == w.(db := w.db.(now := w.db.now + elapsed))
  {
    hide QueueOnly;
  }

  /** What an inspection and a matching decision do. */
  lemma InspectionSees(w: World, r: int, seen: Resources)
    requires r in w.recons && w.recons[r].phase.Inspecting? && w.recons[r].change in w.db.changes
    ensures var c := w.recons[r].change;
            Apply(w, OfRecon(Inspect(r, Some(seen)))) ==
            w.(db := w.db.(changes := w.db.changes[c := w.db.changes[c].(observed := Some(seen))]),
               recons := w.recons[r := w.recons[r].(phase := Saw(seen))])
  {
    hide BooksOnly, SameRows;
  }

  lemma DecisionResumes(w: World, r: int)
    requires r in w.recons && w.recons[r].phase.Saw? && w.recons[r].change in w.db.changes
             && Resumable(w.db, w.recons[r].change)
    requires w.recons[r].phase.seen == w.db.changes[w.recons[r].change].target
    ensures var c := w.recons[r].change;
            Apply(w, OfRecon(Decide(r))) ==
            w.(db := w.db.(changes := w.db.changes[c := w.db.changes[c].(status := Processing)]),
               recons := w.recons[r := w.recons[r].(phase := Resumed(w.recons[r].phase.seen))])
  {
    hide BooksOnly, SameRows;
  }

  /** With one deferred task, the cancel transaction touches two rows. */
  lemma SingleCancel(db: Db, i: InstanceId, seen: Runtime, t: TaskId)
    requires CanCommitCancel(db, i) && DeferredDestroys(db, i) == {t}
    ensures t in db.tasks
    ensures var runtime := CoercedRuntime(seen);
            var status := if runtime.RuntimeRunning? then Running else Stopped;
            var row := db.instances[i].(status := status, runtime := runtime, destroyAt := None, reason := None);
            CommitCancel(db, i, seen) ==
            db.(instances := db.instances[i := row],
                tasks := db.tasks[t := db.tasks[t].(status := TaskCancelled, lease := None)])
  {
    hide EvolvesQuietly, SameMoneyRows;
    assert t in DeferredDestroys(db, i);
    forall u | u in db.tasks ensures Deferred(db, u, i) <==> u == t {
      assert u in DeferredDestroys(db, i) <==> Deferred(db, u, i);
    }
  }

  // ---------- one execution ----------

  function ClaimedRow(row: Task, token: Token, now: Instant): Task {
    row.(status := TaskRunning, attempts := row.attempts + 1, lease := Some(Lease(token, now + LEASE)))
  }

  predicate Claimable(w: World, t: TaskId, token: Token) {
    CanClaim(w.db, t, token) && token !in w.execs
  }

  /** Nothing stands between the task and the Agent. */
  predicate Undisturbed(w: World, t: TaskId, token: Token) {
    Claimable(w, t, token)
    && var row := w.db.tasks[t];
       var instance := w.db.instances[row.instance];
       (row.generation == 0 || row.generation == instance.generation)
       && NodeUsable(w.db, instance.node) && instance.status in ExpectedStates(row.action)
  }

  function WithExec(w: World, t: TaskId, token: Token, row: Task, lock: Option<Lock>, x: Exec): World
    requires t in w.db.tasks && w.db.tasks[t].instance in w.db.instances
  {
    var i := w.db.tasks[t].instance;
    w.(db := w.db.(tasks := w.db.tasks[t := row], instances := w.db.instances[i := w.db.instances[i].(lock := lock)],
                   tokens := w.db.tokens[token := t]),
       execs := w.execs[token := x], latest := w.latest[i := token])
  }

  /** The execution is in some phase while it holds its lease and its lock. */
  function AtPhase(w: World, t: TaskId, token: Token, phase: Phase, seen: Option<Status>,
                   plan: Option<Instant> := None): World
    requires Claimable(w, t, token)
  {
    var row := ClaimedRow(w.db.tasks[t], token, w.db.now);
    WithExec(w, t, token, row, Some(Lock(t, token, w.db.now + LEASE)),
             Exec(t, if phase.Claimed? then None else Some(row), phase, Waiting, plan, seen))
  }

  function FinishedRow(row: Task, next: TaskStatus, now: Instant): Task {
    var done := row.(status := next, lease := None);
    if next == TaskPending then done.(runAfter := now + row.attempts * row.attempts * MINUTE) else done
  }

  /** The execution has finished and released its lock. */
  function Finished(w: World, t: TaskId, token: Token, outcome: Outcome, seen: Option<Status>,
                    plan: Option<Instant> := None): World
    requires Claimable(w, t, token)
  {
    var row := ClaimedRow(w.db.tasks[t], token, w.db.now);
    var next := FinishedStatus(row, outcome);
    WithExec(w, t, token, FinishedRow(row, next, w.db.now), None,
             Exec(t, Some(row), Unlocked(outcome, next), Waiting, plan, seen))
  }

  lemma ClaimStep(w: World, t: TaskId, token: Token)
    requires Claimable(w, t, token)
    ensures Apply(w, OfLease(Claim(t, token))) == AtPhase(w, t, token, Claimed, None)
  {
    hide Evolves, SidelinedKept, LifeKept;
  }

  lemma ReloadStep(w: World, t: TaskId, token: Token)
    requires Claimable(w, t, token)
    ensures Apply(AtPhase(w, t, token, Claimed, None), OfLease(Reload(token))) == AtPhase(w, t, token, Loaded, None)
  {
  }

  function StatusOf(w: World, t: TaskId): Status
    requires t in w.db.tasks && w.db.tasks[t].instance in w.db.instances
  {
    w.db.instances[w.db.tasks[t].instance].status
  }

  /** The execution as the world sees it. */
  lemma PhaseFacts(w: World, t: TaskId, token: Token, phase: Phase, seen: Option<Status>, plan: Option<Instant> := None)
    requires Claimable(w, t, token) && !phase.Claimed?
    ensures var v := AtPhase(w, t, token, phase, seen, plan);
            var row := ClaimedRow(w.db.tasks[t], token, w.db.now);
            Has(v, token) && v.execs[token] == Exec(t, Some(row), phase, Waiting, plan, seen)
            && v.db == AtPhase(w, t, token, Loaded, None).db
            && row.instance == w.db.tasks[t].instance && row.action == w.db.tasks[t].action
            && row.instance in v.db.instances && v.db.instances[row.instance].status == StatusOf(w, t)
  {
  }

  lemma Rephase(w: World, t: TaskId, token: Token, p: Phase, q: Phase, seen: Option<Status>,
                plan: Option<Instant> := None)
    requires Claimable(w, t, token) && !p.Claimed? && !q.Claimed?
    ensures token in AtPhase(w, t, token, p, seen, plan).execs
    ensures WithPhase(AtPhase(w, t, token, p, seen, plan), token, q) == AtPhase(w, t, token, q, seen, plan)
  {
  }

  lemma Reseen(w: World, t: TaskId, token: Token, seen: Option<Status>)
    requires Claimable(w, t, token)
    ensures var v := AtPhase(w, t, token, Loaded, None);
            token in v.execs
            && v.(execs := v.execs[token := v.execs[token].(seen := seen)]) == AtPhase(w, t, token, Loaded, seen)
  {
  }

  /** Claim, re-read, read the instance. */
  lemma ReachesRead(w: World, t: TaskId, token: Token)
    requires Claimable(w, t, token)
    ensures Reaches(w, AtPhase(w, t, token, Loaded, Some(StatusOf(w, t))))
  {
    hide Reaches, Apply, AtPhase;
    Stays(w);
    Then(w, w, OfLease(Claim(t, token)));
    ClaimStep(w, t, token);
    Then(w, AtPhase(w, t, token, Claimed, None), OfLease(Reload(token)));
    ReloadStep(w, t, token);
    var loaded := AtPhase(w, t, token, Loaded, None);
    PhaseFacts(w, t, token, Loaded, None);
    Then(w, loaded, OfExec(ReadInstance(token)));
    ReadStep(loaded, token);
    Reseen(w, t, token, Some(StatusOf(w, t)));
  }

  lemma FenceOpen(w: World, t: TaskId, token: Token)
    requires Undisturbed(w, t, token)
    ensures MayCallAgent(AtPhase(w, t, token, Loaded, None).db, Ticket(t, ClaimedRow(w.db.tasks[t], token, w.db.now)),
                         ExpectedStates(w.db.tasks[t].action))
  {
  }

  lemma ReachesAgent(w: World, t: TaskId, token: Token)
    requires Undisturbed(w, t, token)
    ensures Reaches(w, AtPhase(w, t, token, Cleared, Some(StatusOf(w, t))))
  {
    hide Reaches, Apply, AtPhase, MayCallAgent, ExpectedStates, StatusOf;
    var seen := Some(StatusOf(w, t));
    var loaded := AtPhase(w, t, token, Loaded, seen);
    ReachesRead(w, t, token);
    PhaseFacts(w, t, token, Loaded, seen);
    FenceOpen(w, t, token);
    Then(w, loaded, OfExec(Fence(token)));
    FenceStep(loaded, token);
    Rephase(w, t, token, Loaded, Cleared, seen);
  }

  lemma FinishRow(w: World, t: TaskId, token: Token, outcome: Outcome, seen: Option<Status>, plan: Option<Instant>)
    requires Claimable(w, t, token)
    ensures var row := ClaimedRow(w.db.tasks[t], token, w.db.now);
            var db := AtPhase(w, t, token, Returned(outcome), seen, plan).db;
            OwnsLease(db, Ticket(t, row))
            && FinishTask(db, Ticket(t, row), outcome)
               == db.(tasks := db.tasks[t := FinishedRow(row, FinishedStatus(row, outcome), w.db.now)])
  {
    hide EvolvesQuietly, LifeKept, FinishedStatus;
  }

  /** The row has left the queue's hands, the lock is still there. */
  function AtUnlock(w: World, t: TaskId, token: Token, outcome: Outcome, seen: Option<Status>,
                    plan: Option<Instant>): World
    requires Claimable(w, t, token)
  {
    var row := ClaimedRow(w.db.tasks[t], token, w.db.now);
    var next := FinishedStatus(row, outcome);
    WithExec(w, t, token, FinishedRow(row, next, w.db.now), Some(Lock(t, token, w.db.now + LEASE)),
             Exec(t, Some(row), Accepted(outcome, next), Waiting, plan, seen))
  }

  lemma ReachesUnlock(w: World, t: TaskId, token: Token, outcome: Outcome, seen: Option<Status>, plan: Option<Instant>)
    requires Claimable(w, t, token)
    ensures Apply(AtPhase(w, t, token, Returned(outcome), seen, plan), OfLease(Finish(token)))
            == AtUnlock(w, t, token, outcome, seen, plan)
  {
    hide Apply, AtPhase, AtUnlock, Claimable, FinishedStatus, FinishTask, OwnsLease, FinishedRow, ClaimedRow;
    PhaseFacts(w, t, token, Returned(outcome), seen, plan);
    FinishRow(w, t, token, outcome, seen, plan);
    FinishStep(AtPhase(w, t, token, Returned(outcome), seen, plan), token);
    Unlocking(w, t, token, outcome, seen, plan);
  }

  /** The finish changes the task's row and the execution's phase. */
  lemma Unlocking(w: World, t: TaskId, token: Token, outcome: Outcome, seen: Option<Status>, plan: Option<Instant>)
    requires Claimable(w, t, token)
    ensures var v := AtPhase(w, t, token, Returned(outcome), seen, plan);
            var row := ClaimedRow(w.db.tasks[t], token, w.db.now);
            var next := FinishedStatus(row, outcome);
            var after := v.db.(tasks := v.db.tasks[t := FinishedRow(row, next, w.db.now)]);
            token in v.execs
            && WithPhase(v.(db := after), token, Accepted(outcome, next)) == AtUnlock(w, t, token, outcome, seen, plan)
  {
    hide FinishedStatus, FinishedRow, ClaimedRow;
  }

  lemma UnlockRow(w: World, t: TaskId, token: Token, outcome: Outcome, seen: Option<Status>, plan: Option<Instant>)
    requires Claimable(w, t, token)
    ensures ReleaseInstanceLock(AtUnlock(w, t, token, outcome, seen, plan).db,
                                Ticket(t, ClaimedRow(w.db.tasks[t], token, w.db.now)))
            == Finished(w, t, token, outcome, seen, plan).db
  {
    hide QueueOnly, FinishedStatus, FinishedRow;
  }

  lemma ReachesRelease(w: World, t: TaskId, token: Token, outcome: Outcome, seen: Option<Status>, plan: Option<Instant>)
    requires Claimable(w, t, token)
    ensures Apply(AtUnlock(w, t, token, outcome, seen, plan), OfLease(Unlock(token)))
            == Finished(w, t, token, outcome, seen, plan)
  {
    hide Apply, FinishedStatus, FinishedRow, ReleaseInstanceLock, ClaimedRow, CanClaim;
    UnlockRow(w, t, token, outcome, seen, plan);
    UnlockStep(AtUnlock(w, t, token, outcome, seen, plan), token);
  }

  lemma FinishSteps(w: World, t: TaskId, token: Token, outcome: Outcome, seen: Option<Status>,
                    plan: Option<Instant> := None)
    requires Claimable(w, t, token)
    ensures Reaches(AtPhase(w, t, token, Returned(outcome), seen, plan), Finished(w, t, token, outcome, seen, plan))
  {
    hide Reaches, AtPhase, Finished, AtUnlock, Apply;
    var w0 := AtPhase(w, t, token, Returned(outcome), seen, plan);
    ReachesUnlock(w, t, token, outcome, seen, plan);
    ReachesRelease(w, t, token, outcome, seen, plan);
    Stays(w0);
    Then(w0, w0, OfLease(Finish(token)));
    Then(w0, AtUnlock(w, t, token, outcome, seen, plan), OfLease(Unlock(token)));
  }

  /** The Agent answers an execution that is cleared. */
  lemma Answered(w: World, t: TaskId, token: Token, outcome: Outcome, seen: Option<Status>,
                 plan: Option<Instant> := None)
    requires Claimable(w, t, token) && (w.db.tasks[t].action in {Destroy, Purge, Reinstall} ==> plan.Some?)
    ensures Apply(AtPhase(w, t, token, Cleared, seen, plan), OfExec(CallAgent(token, outcome)))
            == AtPhase(w, t, token, if outcome.Succeeds? then Applied else Returned(outcome), seen, plan)
  {
    hide Apply, AtPhase;
    PhaseFacts(w, t, token, Cleared, seen, plan);
    Rephase(w, t, token, Cleared, if outcome.Succeeds? then Applied else Returned(outcome), seen, plan);
    CallStep(AtPhase(w, t, token, Cleared, seen, plan), token, outcome);
  }

  /** A whole execution whose Agent call fails. */
  lemma FailedRound(w: World, t: TaskId, token: Token)
    requires Undisturbed(w, t, token) && w.db.tasks[t].action !in {Destroy, Purge, Reinstall}
    ensures Reaches(w, Finished(w, t, token, Fails, Some(StatusOf(w, t))))
  {
    hide Reaches, Apply, AtPhase, Finished, StatusOf;
    var seen := Some(StatusOf(w, t));
    ReachesAgent(w, t, token);
    Answered(w, t, token, Fails, seen);
    Then(w, AtPhase(w, t, token, Cleared, seen), OfExec(CallAgent(token, Fails)));
    FinishSteps(w, t, token, Fails, seen);
    Onward(w, AtPhase(w, t, token, Returned(Fails), seen), Finished(w, t, token, Fails, seen));
  }

  // ---------- a destroy that fails ----------

  /** The destroy is for the plan in force. */
  predicate ForPlan(w: World, t: TaskId, token: Token, plan: Instant) {
    Undisturbed(w, t, token) && w.db.tasks[t].action.Destroy?
    && w.db.tasks[t].key == DestroyKey(w.db.tasks[t].instance, plan)
    && w.db.instances[w.db.tasks[t].instance].destroyAt == Some(plan)
  }

  lemma PlanFound(w: World, t: TaskId, token: Token, plan: Instant)
    requires ForPlan(w, t, token, plan)
    ensures PlanInForce(AtPhase(w, t, token, Loaded, None).db, Ticket(t, ClaimedRow(w.db.tasks[t], token, w.db.now)))
              == Some(plan)
  {
  }

  lemma Replan(w: World, t: TaskId, token: Token, seen: Option<Status>, plan: Option<Instant>)
    requires Claimable(w, t, token)
    ensures var v := AtPhase(w, t, token, Cleared, seen);
            token in v.execs
            && v.(execs := v.execs[token := v.execs[token].(plan := plan, phase := Planned)])
               == AtPhase(w, t, token, Planned, seen, plan)
  {
  }

  /** The destroy reads its plan. */
  lemma DestroyReads(w: World, t: TaskId, token: Token, plan: Instant)
    requires ForPlan(w, t, token, plan)
    ensures var seen := Some(StatusOf(w, t));
            Apply(AtPhase(w, t, token, Cleared, seen), OfExec(ReadPlan(token)))
            == AtPhase(w, t, token, Planned, seen, Some(plan))
  {
    hide Apply, AtPhase, MayCallAgent, ExpectedStates, StatusOf, PlanInForce;
    var cleared := AtPhase(w, t, token, Cleared, Some(StatusOf(w, t)));
    PhaseFacts(w, t, token, Cleared, Some(StatusOf(w, t)));
    PlanFound(w, t, token, plan);
    PlanStep(cleared, token);
    Replan(w, t, token, Some(StatusOf(w, t)), Some(plan));
  }

  lemma StillDue(w: World, t: TaskId, token: Token)
    requires Undisturbed(w, t, token) && PurgeDue(w.db, w.db.tasks[t].instance)
    ensures PurgeDue(AtPhase(w, t, token, Loaded, None).db, w.db.tasks[t].instance)
    ensures AtPhase(w, t, token, Loaded, None).db.now == w.db.now
  {
    forall o | o in w.db.orders ensures !LiveOrder(AtPhase(w, t, token, Loaded, None).db, o, w.db.tasks[t].instance) {
      assert !LiveOrder(w.db, o, w.db.tasks[t].instance);
    }
  }

  lemma PurgePlanStep(w: World, e: Token)
    requires Has(w, e) && w.execs[e].phase.Cleared? && w.execs[e].plan.None?
    requires var tk := TicketOf(w.execs[e]); tk.row.action.Purge? && PurgeDue(w.db, tk.row.instance)
    ensures Apply(w, OfExec(ReadPlan(e)))
            == w.(execs := w.execs[e := w.execs[e].(plan := Some(w.db.now), phase := Planned)])
  {
    hide SameTickets, SameRenewals, PurgeDue;
  }

  /** The purge finds that it is eligible. */
  lemma PurgeReads(w: World, t: TaskId, token: Token)
    requires Undisturbed(w, t, token) && w.db.tasks[t].action.Purge? && PurgeDue(w.db, w.db.tasks[t].instance)
    ensures var seen := Some(StatusOf(w, t));
            Apply(AtPhase(w, t, token, Cleared, seen), OfExec(ReadPlan(token)))
            == AtPhase(w, t, token, Planned, seen, Some(w.db.now))
  {
    hide Apply, AtPhase, MayCallAgent, ExpectedStates, StatusOf, PurgeDue;
    PhaseFacts(w, t, token, Cleared, Some(StatusOf(w, t)));
    StillDue(w, t, token);
    PurgePlanStep(AtPhase(w, t, token, Cleared, Some(StatusOf(w, t))), token);
    Replan(w, t, token, Some(StatusOf(w, t)), Some(w.db.now));
  }

  /** With its plan read, a destroy or purge passes the second check and stands before its call. */
  lemma ReachesCall(w: World, t: TaskId, token: Token, plan: Instant)
    requires Undisturbed(w, t, token) && w.db.tasks[t].action in {Destroy, Purge}
    requires var seen := Some(StatusOf(w, t));
             Apply(AtPhase(w, t, token, Cleared, seen), OfExec(ReadPlan(token)))
             == AtPhase(w, t, token, Planned, seen, Some(plan))
    ensures Reaches(w, AtPhase(w, t, token, Cleared, Some(StatusOf(w, t)), Some(plan)))
  {
    hide Reaches, Apply, AtPhase, MayCallAgent, ExpectedStates, StatusOf;
    var seen := Some(StatusOf(w, t));
    ReachesAgent(w, t, token);
    Then(w, AtPhase(w, t, token, Cleared, seen), OfExec(ReadPlan(token)));
    var planned := AtPhase(w, t, token, Planned, seen, Some(plan));
    PhaseFacts(w, t, token, Planned, seen, Some(plan));
    FenceOpen(w, t, token);
    Then(w, planned, OfExec(Fence(token)));
    FenceStep(planned, token);
    Rephase(w, t, token, Planned, Cleared, seen, Some(plan));
  }

  lemma FailedDestroy(w: World, t: TaskId, token: Token, plan: Instant)
    requires ForPlan(w, t, token, plan)
    ensures Reaches(w, Finished(w, t, token, Fails, Some(StatusOf(w, t)), Some(plan)))
  {
    hide Reaches, Apply, AtPhase, Finished, StatusOf;
    var seen := Some(StatusOf(w, t));
    DestroyReads(w, t, token, plan);
    ReachesCall(w, t, token, plan);
    Answered(w, t, token, Fails, seen, Some(plan));
    Then(w, AtPhase(w, t, token, Cleared, seen, Some(plan)), OfExec(CallAgent(token, Fails)));
    FinishSteps(w, t, token, Fails, seen, Some(plan));
    Onward(w, AtPhase(w, t, token, Returned(Fails), seen, Some(plan)), Finished(w, t, token, Fails, seen, Some(plan)));
  }

  /** The commit of a destroy. */
  lemma CommitDestroyStep(w: World, e: Token)
    requires Has(w, e) && w.execs[e].phase.Applied? && w.execs[e].ticket.value.action.Destroy? && w.execs[e].plan.Some?
    requires CanWriteDestroyed(w.db, TicketOf(w.execs[e]), w.execs[e].plan.value)
    ensures var x := w.execs[e];
            Apply(w, OfExec(CommitDestroy(e)))
            == WithPhase(w.(db := WriteDestroyed(w.db, TicketOf(x), x.plan.value)), e, Returned(Succeeds))
  {
    hide SameTickets, SameRenewals, WriteDestroyed, CanWriteDestroyed, EvolvesQuietly;
  }

  /** Recovery of a lost lease that is not a resize's. */
  lemma RecoverStep(w: World, t: TaskId, seen: Status, r: int)
    requires LeaseExpired(w.db, t) && r !in w.recons && !w.db.tasks[t].action.Resize?
    ensures Apply(w, OfLease(Recover(t, seen, r))) == w.(db := RecoverExpiredLease(w.db, t, seen))
  {
    hide RecoverExpiredLease, QueueOnly;
  }
}
