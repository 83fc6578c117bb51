/**
 A run in which a purge stands before its request to the Agent, past both of its fence checks,
 while an unexpired order of the instance is active: the execution that deployed the instance
 stalled between its status write and the activation of its orders.
 */
module PurgeGap {
  import opened Wrappers
  import opened Billing
  import opened Schema
  import opened Evolution
  import opened TaskQueue
  import opened Lifecycle
  import opened Commerce
  import opened World
  import opened Traces
  import opened Counterexamples

  const END: Instant := 3 * MONTH
  const DUE: Instant := LEASE + GRACE
  const GONE: Instant := DUE + PURGE_DELAY

  // ---------- the scenes ----------

  function Row(): Instance {
    Instance(1, 1, Running, RuntimeRunning, SMALL, 1, END, None, None, None, None, Some(Lock(1, 1, LEASE)))
  }

  function DoomedRow(): Instance {
    Row().(status := DestroyScheduled, reason := Some(Manual), destroyAt := Some(DUE))
  }

  function GoneRow(): Instance {
    DoomedRow().(status := Destroyed, runtime := RuntimeStopped, destroyedAt := Some(DUE), purgeAt := Some(GONE))
  }

  function CreateTask(status: TaskStatus, runAfter: Instant, lease: Option<Lease>): Task {
    Task(1, Create, CreateKey(1), status, 1, runAfter, lease, 0, None, SMALL)
  }

  function Lost(): Task {
    CreateTask(TaskReview, LEASE, None)
  }

  function Destroying(status: TaskStatus, attempts: int): Task {
    Task(1, Destroy, DestroyKey(1, DUE), status, attempts, DUE, None, 0, None, SMALL)
  }

  function Purging(): Task {
    Task(1, Purge, PurgeKey(1, GONE), TaskPending, 0, GONE, None, 0, None, SMALL)
  }

  /** The execution that stalls. */
  function Stalled(): Exec {
    Exec(1, Some(CreateTask(TaskRunning, 0, Some(Lease(1, LEASE)))), Transitioned, Waiting, None, Some(Deploying))
  }

  function Scene(now: Instant, row: Instance, tasks: map<TaskId, Task>, tokens: map<Token, TaskId>,
                 keys: set<TaskKey>, execs: map<Token, Exec>, latest: map<InstanceId, Token>): World {
    World(Db(now, map[1 := Node(true, false, true)], map[1 := row], tasks, map[],
             map[1 := Order(1, 1, 3000, OrderDeploying, 0, END)], map[1 := 7000],
             [Entry(1, 10000, 10000, None, None), Entry(1, -3000, 7000, Some(1), None)], tokens, keys, {}, {}),
          execs, map[], map[], latest, {})
  }

  /** The container runs, the instance is running, its order still deploying. */
  function Reported(now: Instant, task: Task): World {
    Scene(now, Row(), map[1 := task], map[1 := 1], {CreateKey(1)}, map[1 := Stalled()], map[1 := 1])
  }

  /** The owner has planned its destruction; the plan is due. */
  function Doomed(now: Instant): World {
    Scene(now, DoomedRow(), map[1 := Lost(), 2 := Destroying(TaskPending, 0)], map[1 := 1],
          {CreateKey(1), DestroyKey(1, DUE)}, map[1 := Stalled()], map[1 := 1])
  }

  function Destroyer(): Exec {
    Exec(2, Some(ClaimedRow(Destroying(TaskPending, 0), 2, DUE)), Unlocked(Succeeds, TaskDone), Waiting, Some(DUE),
         Some(DestroyScheduled))
  }

  /** The containers are destroyed. */
  function Gone(now: Instant, purge: map<TaskId, Task>, keys: set<TaskKey>): World {
    Scene(now, GoneRow().(lock := None), map[1 := Lost(), 2 := Destroying(TaskDone, 1)] + purge, map[1 := 1, 2 := 2],
          {CreateKey(1), DestroyKey(1, DUE)} + keys, map[1 := Stalled(), 2 := Destroyer()], map[1 := 2])
  }

  /** The retention is over and the purge queued. */
  function Over(): World {
    Gone(GONE, map[3 := Purging()], {PurgeKey(1, GONE)})
  }

  // ---------- the deployment that stalls ----------

  /** The purchase once the container runs. */
  function Running1(): World {
    var w := BoughtUntil(END);
    w.(db := w.db.(instances := map[1 := w.db.instances[1].(status := Running, runtime := RuntimeRunning)]))
  }

  lemma Deployable()
    ensures Undisturbed(BoughtUntil(END), 1, 1) && StatusOf(BoughtUntil(END), 1) == Deploying
    ensures BoughtUntil(END).db.tasks[1].action.Create? && Claimable(Running1(), 1, 1)
  {
  }

  lemma DeploymentReports()
    requires Undisturbed(BoughtUntil(END), 1, 1) && Claimable(Running1(), 1, 1)
    ensures Apply(AtPhase(BoughtUntil(END), 1, 1, Applied, Some(Deploying)), OfExec(Report(1)))
            == AtPhase(Running1(), 1, 1, Transitioned, Some(Deploying))
  {
    hide Apply, EvolvesQuietly;
    ReportStep(AtPhase(BoughtUntil(END), 1, 1, Applied, Some(Deploying)), 1);
  }

  lemma IsReported()
    requires Claimable(Running1(), 1, 1)
    ensures AtPhase(Running1(), 1, 1, Transitioned, Some(Deploying))
            == Reported(0, CreateTask(TaskRunning, 0, Some(Lease(1, LEASE))))
  {
  }

  lemma ReachesReported()
    ensures Reaches(Genesis(0), Reported(0, CreateTask(TaskRunning, 0, Some(Lease(1, LEASE)))))
  {
    hide Reaches, Apply, AtPhase, BoughtUntil, Running1, Reported, Undisturbed, Claimable;
    var w, seen := BoughtUntil(END), Some(Deploying);
    ReachesBought(END);
    Deployable();
    ReachesAgent(w, 1, 1);
    Onward(Genesis(0), w, AtPhase(w, 1, 1, Cleared, seen));
    IsClaimable(w, 1, 1);
    Answered(w, 1, 1, Succeeds, seen);
    Then(Genesis(0), AtPhase(w, 1, 1, Cleared, seen), OfExec(CallAgent(1, Succeeds)));
    Then(Genesis(0), AtPhase(w, 1, 1, Applied, seen), OfExec(Report(1)));
    DeploymentReports();
    IsReported();
  }

  lemma IsClaimable(w: World, t: TaskId, token: Token)
    requires Undisturbed(w, t, token)
    ensures Claimable(w, t, token)
  {
  }

  // ---------- the planned destruction ----------

  lemma Recovers()
    ensures LeaseExpired(Reported(LEASE, CreateTask(TaskRunning, 0, Some(Lease(1, LEASE)))).db, 1)
    ensures RecoverExpiredLease(Reported(LEASE, CreateTask(TaskRunning, 0, Some(Lease(1, LEASE)))).db, 1, Running)
            == Reported(LEASE, Lost()).db
  {
    hide QueueOnly;
  }

  lemma Plans()
    ensures var db := Reported(LEASE, Lost()).db;
            var planned := db.(instances := map[1 := DoomedRow()]);
            PlanDestroy(db, 1, Row()) == planned
            && ScheduleLifecycleTask(planned, 2, 1, false, DUE, DUE) == Doomed(LEASE).db
  {
    hide EvolvesQuietly, SameMoneyRows, QueueOnly;
  }

  lemma ReachesDoomed()
    ensures Reaches(Genesis(0), Doomed(DUE))
  {
    hide Reaches, Apply, RecoverExpiredLease, PlanDestroy, ScheduleLifecycleTask;
    var lost := CreateTask(TaskRunning, 0, Some(Lease(1, LEASE)));
    ReachesReported();
    Then(Genesis(0), Reported(0, lost), OfLease(Tick(LEASE)));
    TickStep(Reported(0, lost), LEASE);
    Then(Genesis(0), Reported(LEASE, lost), OfLease(Recover(1, Running, 1)));
    Recovers();
    RecoverStep(Reported(LEASE, lost), 1, Running, 1);
    var planned := Reported(LEASE, Lost());
    Then(Genesis(0), planned, OfLife(Plan(1, Row())));
    PlanningStep(planned, 1, Row());
    Plans();
    var doomed := planned.(db := planned.db.(instances := map[1 := DoomedRow()]));
    Then(Genesis(0), doomed, OfLife(Schedule(2, 1, false, DUE, DUE)));
    ScheduleStep(doomed, 2, 1, false, DUE, DUE);
    Then(Genesis(0), Doomed(LEASE), OfLease(Tick(GRACE)));
    TickStep(Doomed(LEASE), GRACE);
  }

  // ---------- the destroy ----------

  lemma DoomedIsPlanned()
    ensures ForPlan(Doomed(DUE), 2, 2, DUE) && StatusOf(Doomed(DUE), 2) == DestroyScheduled
    ensures Claimable(Doomed(DUE), 2, 2) && Claimable(Destroyed1(), 2, 2)
  {
  }

  /** The row as the commit leaves it, before the lock is released. */
  function Destroyed1(): World {
    var w := Doomed(DUE);
    w.(db := w.db.(instances := map[1 := GoneRow()]))
  }

  lemma DestroyCommits()
    requires Claimable(Doomed(DUE), 2, 2) && Claimable(Destroyed1(), 2, 2)
    ensures Apply(AtPhase(Doomed(DUE), 2, 2, Applied, Some(DestroyScheduled), Some(DUE)), OfExec(CommitDestroy(2)))
            == AtPhase(Destroyed1(), 2, 2, Returned(Succeeds), Some(DestroyScheduled), Some(DUE))
  {
    hide Apply, EvolvesQuietly, SameMoneyRows;
    CommitDestroyStep(AtPhase(Doomed(DUE), 2, 2, Applied, Some(DestroyScheduled), Some(DUE)), 2);
  }

  lemma IsGone()
    requires Claimable(Destroyed1(), 2, 2)
    ensures Finished(Destroyed1(), 2, 2, Succeeds, Some(DestroyScheduled), Some(DUE)) == Gone(DUE, map[], {})
  {
  }

  lemma ReachesGone()
    ensures Reaches(Genesis(0), Gone(DUE, map[], {}))
  {
    hide Reaches, Apply, AtPhase, Finished, Claimable, Doomed, Destroyed1, Gone;
    var w, seen := Doomed(DUE), Some(DestroyScheduled);
    ReachesDoomed();
    DoomedIsPlanned();
    DestroyReads(w, 2, 2, DUE);
    ReachesCall(w, 2, 2, DUE);
    Onward(Genesis(0), w, AtPhase(w, 2, 2, Cleared, seen, Some(DUE)));
    Answered(w, 2, 2, Succeeds, seen, Some(DUE));
    Then(Genesis(0), AtPhase(w, 2, 2, Cleared, seen, Some(DUE)), OfExec(CallAgent(2, Succeeds)));
    Then(Genesis(0), AtPhase(w, 2, 2, Applied, seen, Some(DUE)), OfExec(CommitDestroy(2)));
    DestroyCommits();
    FinishSteps(Destroyed1(), 2, 2, Succeeds, seen, Some(DUE));
    Onward(Genesis(0), AtPhase(Destroyed1(), 2, 2, Returned(Succeeds), seen, Some(DUE)),
           Finished(Destroyed1(), 2, 2, Succeeds, seen, Some(DUE)));
    IsGone();
  }

  // ---------- the purge ----------

  lemma PurgeQueues()
    ensures ScheduleLifecycleTask(Gone(GONE, map[], {}).db, 3, 1, true, GONE, GONE) == Over().db
  {
    hide EvolvesQuietly, SameMoneyRows, QueueOnly;
  }

  lemma PurgeIsDue()
    ensures Undisturbed(Over(), 3, 3) && Claimable(Over(), 3, 3) && StatusOf(Over(), 3) == Destroyed
    ensures Over().db.tasks[3] == Purging() && PurgeDue(Over().db, 1) && Over().db.now == GONE
  {
  }

  lemma ReachesPurge()
    ensures Claimable(Over(), 3, 3) && Reaches(Genesis(0), AtPhase(Over(), 3, 3, Cleared, Some(Destroyed), Some(GONE)))
  {
    hide Reaches, Apply, AtPhase, ScheduleLifecycleTask, Over, Claimable, Undisturbed, PurgeDue;
    ReachesGone();
    Then(Genesis(0), Gone(DUE, map[], {}), OfLease(Tick(PURGE_DELAY)));
    TickStep(Gone(DUE, map[], {}), PURGE_DELAY);
    Then(Genesis(0), Gone(GONE, map[], {}), OfLife(Schedule(3, 1, true, GONE, GONE)));
    ScheduleStep(Gone(GONE, map[], {}), 3, 1, true, GONE, GONE);
    PurgeQueues();
    SameScene();
    PurgeIsDue();
    PurgeReads(Over(), 3, 3);
    ReachesCall(Over(), 3, 3, GONE);
    Onward(Genesis(0), Over(), AtPhase(Over(), 3, 3, Cleared, Some(Destroyed), Some(GONE)));
  }

  lemma SameScene()
    ensures Gone(GONE, map[], {}).(db := Over().db) == Over()
  {
  }

  // ---------- the activation ----------

  lemma BeforeTheCall()
    requires Claimable(Over(), 3, 3)
    ensures var w := AtPhase(Over(), 3, 3, Cleared, Some(Destroyed), Some(GONE));
            && Has(w, 1) && w.execs[1] == Stalled() && Has(w, 3) && w.execs[3].phase.Cleared? && w.execs[3].plan.Some?
            && w.execs[3].ticket.value.action.Purge? && w.execs[3].ticket.value.instance == 1
            && MayCallAgent(w.db, TicketOf(w.execs[3]), {Destroyed})
            && w.db.orders == map[1 := Order(1, 1, 3000, OrderDeploying, 0, END)] && w.db.now == GONE
  {
  }

  lemma ActivatedLate(db: Db)
    requires db.orders == map[1 := Order(1, 1, 3000, OrderDeploying, 0, END)] && db.now == GONE
    ensures ActivateOrders(db, 1) == db.(orders := map[1 := Order(1, 1, 3000, OrderActive, 0, END)])
    ensures 1 in ActivateOrders(db, 1).orders && LiveOrder(ActivateOrders(db, 1), 1, 1)
  {
    hide BooksOnly;
  }

  lemma StillAdmitted(db: Db, orders: map<OrderId, Order>, tk: Ticket, states: set<Status>)
    requires MayCallAgent(db, tk, states)
    ensures MayCallAgent(db.(orders := orders), tk, states)
  {
  }

  /** A purge that may call the Agent, and passes the fence again, meets an unexpired active order. */
  lemma PurgeMeetsLiveOrder()
    ensures exists w: World, e: Token ::
              Reaches(Genesis(0), w) && CanCallAgent(w, e) && TicketOf(w.execs[e]).row.action.Purge?
              && MayCallAgent(w.db, TicketOf(w.execs[e]), {Destroyed}) && 1 in w.db.orders
              && LiveOrder(w.db, 1, TicketOf(w.execs[e]).row.instance)
  {
    hide Reaches, Apply, AtPhase, Claimable, MayCallAgent, ActivateOrders, LiveOrder, Over, Stalled;
    ReachesPurge();
    BeforeTheCall();
    var w := AtPhase(Over(), 3, 3, Cleared, Some(Destroyed), Some(GONE));
    StalledFacts();
    Then(Genesis(0), w, OfSaga(ActivateExec(1)));
    ActivateStep(w, 1);
    ActivatedLate(w.db);
    StillAdmitted(w.db, ActivateOrders(w.db, 1).orders, TicketOf(w.execs[3]), {Destroyed});
    var v := Apply(w, OfSaga(ActivateExec(1)));
    assert v.execs[3] == w.execs[3];
    assert CanCallAgent(v, 3);
  }

  lemma StalledFacts()
    ensures Stalled().phase.Transitioned? && Stalled().ticket.Some? && Stalled().ticket.value.instance == 1
  {
  }
}
