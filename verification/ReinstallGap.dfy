/**
 A run in which a reinstall that read a planned destruction reports back after that plan was
 cancelled and the instance refunded: the refunded instance runs again. No request is delayed by
 more than a few statements of others.
 */
module ReinstallGap {
  import opened Wrappers
  import opened Billing
  import opened Refunds
  import opened Schema
  import opened Evolution
  import opened TaskQueue
  import opened Lifecycle
  import opened Commerce
  import opened World
  import opened Traces
  import opened Counterexamples
  import opened EvidenceGap
  import G = GenerationGap
  import F = FinalityGap

  const CUT: Instant := F.CUT
  const BACK: int := F.BACK
  const SEEN: Option<Status> := Some(DestroyScheduled)

  // ---------- the scenes ----------

  function Money(): seq<Entry> {
    [Entry(1, 10000, 10000, None, None), Entry(1, -3000, 7000, Some(1), None), Entry(1, -6000, 1000, None, Some(1))]
  }

  function Refunded(): seq<Entry> {
    Money() + [Entry(1, BACK, 1000 + BACK, Some(1), None)]
  }

  function DestroyTask(status: TaskStatus): Task {
    Task(1, Destroy, DestroyKey(1, G.DUE), status, 0, G.DUE, None, 0, None, SMALL)
  }

  function Reinstalling(): Task {
    Task(1, Reinstall, RequestKey(5), TaskPending, 0, LEASE, None, 2, None, SMALL)
  }

  /**
   A reviewed resize of a change in flight, a planned destruction or its cancelled task, a cancel
   request past its checks, and a queued reinstall.
   */
  function Scene(row: Instance, destroy: TaskStatus, order: Order, balance: int, entries: seq<Entry>,
                 settled: set<(InstanceId, OrderId)>): World {
    var w := G.Recovered();
    w.(db := w.db.(instances := map[1 := row], tasks := w.db.tasks[3 := DestroyTask(destroy)][5 := Reinstalling()],
                   taskKeys := w.db.taskKeys + {DestroyKey(1, G.DUE)} + {RequestKey(5)}, orders := map[1 := order],
                   wallets := map[1 := balance], ledger := entries, settlements := settled),
       views := map[1 := CancelView(1, RuntimeRunning)])
  }

  function Paid(): Order {
    Order(1, 1, 3000, OrderActive, 0, MONTH)
  }

  function PaidBack(): Order {
    Order(1, 1, 3000, OrderRefunded, 0, CUT)
  }

  function RefundRow(): Instance {
    G.Row().(status := DestroyScheduled, expiresAt := CUT, destroyAt := Some(CUT), reason := Some(Refund))
  }

  function Planned1(): World {
    Scene(G.DoomedRow(), TaskPending, Paid(), 1000, Money(), {})
  }

  function Cancelled2(): World {
    Scene(G.Row(), TaskCancelled, Paid(), 1000, Money(), {})
  }

  function Refunded3(): World {
    Scene(RefundRow(), TaskCancelled, PaidBack(), 1000 + BACK, Refunded(), {(1, 1)})
  }

  function Revived4(): World {
    Scene(RefundRow().(status := Running), TaskCancelled, PaidBack(), 1000 + BACK, Refunded(), {(1, 1)})
  }

  lemma SceneRows(row: Instance, destroy: TaskStatus, order: Order, balance: int, entries: seq<Entry>,
                  settled: set<(InstanceId, OrderId)>)
    ensures var w := Scene(row, destroy, order, balance, entries, settled);
            && w.db.now == LEASE && w.db.tasks.Keys == {1, 2, 3, 5} && w.db.tasks[1] == Deployed().db.tasks[1]
            && w.db.tasks[2] == G.Resize(TaskReview) && w.db.tasks[3] == DestroyTask(destroy)
            && w.db.tasks[5] == Reinstalling()
            && w.db.tokens == map[1 := 1, 2 := 2] && w.execs.Keys == {1, 2}
            && w.db.nodes == map[1 := Node(true, false, true)]
            && w.db.changes == map[1 := InFlightChange()] && w.recons == map[1 := Recon(2, G.Lost(), 1, Inspecting)]
            && w.db.businessKeys == {PendingPurchase(1)} && w.latest == map[1 := 2] && w.discarded == {}
  {
  }

  lemma SceneIsClaimable(row: Instance, destroy: TaskStatus, order: Order, balance: int, entries: seq<Entry>,
                         settled: set<(InstanceId, OrderId)>)
    requires row.lock == Some(Lock(2, 2, LEASE))
    ensures var w := Scene(row, destroy, order, balance, entries, settled);
            Claimable(w, 5, 3) && StatusOf(w, 5) == row.status && w.db.tasks[5] == Reinstalling()
  {
    hide Scene;
    SceneRows(row, destroy, order, balance, entries, settled);
    assert Scene(row, destroy, order, balance, entries, settled).db.instances == map[1 := row] by {
      SceneInstance(row, destroy, order, balance, entries, settled);
    }
  }

  lemma SceneInstance(row: Instance, destroy: TaskStatus, order: Order, balance: int, entries: seq<Entry>,
                      settled: set<(InstanceId, OrderId)>)
    ensures var db := Scene(row, destroy, order, balance, entries, settled).db;
            db.instances == map[1 := row] && db.orders == map[1 := order] && db.wallets == map[1 := balance]
            && db.ledger == entries && db.settlements == settled
  {
  }

  // ---------- up to the worker's first read ----------

  function Viewed(): World {
    G.Doomed().(views := map[1 := CancelView(1, RuntimeRunning)])
  }

  lemma MayCancel()
    ensures MayCancelDestroy(G.Doomed().db, 1) && G.Doomed().db.instances[1].runtime == RuntimeRunning
            && G.Doomed().views == map[]
  {
  }

  lemma ViewLoads()
    ensures Apply(G.Doomed(), OfLife(LoadCancel(1, 1))) == Viewed()
  {
    hide Apply, MayCancelDestroy;
    MayCancel();
    LoadStep(G.Doomed(), 1, 1);
  }

  lemma ReinstallQueues()
    ensures QueueAction(Viewed().db, 5, 1, Reinstall, Current) == Planned1().db
  {
    hide QueueOnly;
  }

  lemma QueueStep(w: World, t: TaskId, i: InstanceId, a: Action, stamp: Stamp)
    ensures Apply(w, OfDesk(Request(t, i, a, stamp))) == w.(db := QueueAction(w.db, t, i, a, stamp))
  {
    hide QueueAction, QueueOnly;
  }

  lemma AllClaimable()
    ensures Claimable(Planned1(), 5, 3) && StatusOf(Planned1(), 5) == DestroyScheduled
    ensures Claimable(Cancelled2(), 5, 3) && Claimable(Refunded3(), 5, 3) && Claimable(Revived4(), 5, 3)
    ensures Planned1().db.tasks[5] == Reinstalling() && Cancelled2().db.tasks[5] == Reinstalling()
            && Refunded3().db.tasks[5] == Reinstalling() && Revived4().db.tasks[5] == Reinstalling()
  {
    hide Scene, Claimable, StatusOf;
    G.OpenedRow();
    SceneIsClaimable(G.DoomedRow(), TaskPending, Paid(), 1000, Money(), {});
    SceneIsClaimable(G.Row(), TaskCancelled, Paid(), 1000, Money(), {});
    SceneIsClaimable(RefundRow(), TaskCancelled, PaidBack(), 1000 + BACK, Refunded(), {(1, 1)});
    SceneIsClaimable(RefundRow().(status := Running), TaskCancelled, PaidBack(), 1000 + BACK, Refunded(), {(1, 1)});
  }

  lemma ReachesFirstRead()
    ensures Claimable(Planned1(), 5, 3) && Reaches(Genesis(0), AtPhase(Planned1(), 5, 3, Loaded, SEEN))
  {
    hide Reaches, Apply, AtPhase, Planned1, Viewed, Claimable, QueueAction, StatusOf;
    G.ReachesRecovered();
    G.IsDoomed();
    Onward(Genesis(0), G.Recovered(), G.Doomed());
    Then(Genesis(0), G.Doomed(), OfLife(LoadCancel(1, 1)));
    ViewLoads();
    Then(Genesis(0), Viewed(), OfDesk(Request(5, 1, Reinstall, Current)));
    QueueStep(Viewed(), 5, 1, Reinstall, Current);
    ReinstallQueues();
    SameViews();
    AllClaimable();
    ReachesRead(Planned1(), 5, 3);
    Onward(Genesis(0), Planned1(), AtPhase(Planned1(), 5, 3, Loaded, SEEN));
  }

  lemma SameViews()
    ensures Viewed().(db := Planned1().db) == Planned1()
  {
  }

  // ---------- the cancel, the fence, the refund, the fence ----------

  /** The execution in one of the scenes. */
  function Working(w: World, phase: Phase, plan: Option<Instant>): World
    requires Claimable(w, 5, 3)
  {
    AtPhase(w, 5, 3, phase, SEEN, plan)
  }

  function Tasks(destroy: TaskStatus): map<TaskId, Task> {
    map[1 := Deployed().db.tasks[1], 2 := G.Resize(TaskReview), 3 := DestroyTask(destroy),
        5 := ClaimedRow(Reinstalling(), 3, LEASE)]
  }

  /** The tables of a scene while the reinstall is worked on. */
  function Desk(row: Instance, destroy: TaskStatus, order: Order, balance: int, entries: seq<Entry>,
                settled: set<(InstanceId, OrderId)>): Db {
    Db(LEASE, map[1 := Node(true, false, true)], map[1 := row.(lock := Some(Lock(5, 3, 2 * LEASE)))], Tasks(destroy),
       map[1 := InFlightChange()], map[1 := order], map[1 := balance], entries, map[1 := 1, 2 := 2, 3 := 5],
       {CreateKey(1), ResizeKey(1), DestroyKey(1, G.DUE), RequestKey(5)}, {PendingPurchase(1)}, settled)
  }

  lemma WorkingDesk(row: Instance, destroy: TaskStatus, order: Order, balance: int, entries: seq<Entry>,
                    settled: set<(InstanceId, OrderId)>, phase: Phase, plan: Option<Instant>)
    requires Claimable(Scene(row, destroy, order, balance, entries, settled), 5, 3)
    ensures Working(Scene(row, destroy, order, balance, entries, settled), phase, plan).db
            == Desk(row, destroy, order, balance, entries, settled)
  {
    hide Scene, Claimable;
    SceneRows(row, destroy, order, balance, entries, settled);
    SceneInstance(row, destroy, order, balance, entries, settled);
    SceneKeys(row, destroy, order, balance, entries, settled);
    var w := Scene(row, destroy, order, balance, entries, settled);
    assert w.db.tasks[5 := ClaimedRow(Reinstalling(), 3, LEASE)] == Tasks(destroy);
  }

  lemma SceneKeys(row: Instance, destroy: TaskStatus, order: Order, balance: int, entries: seq<Entry>,
                  settled: set<(InstanceId, OrderId)>)
    ensures Scene(row, destroy, order, balance, entries, settled).db.taskKeys
            == {CreateKey(1), ResizeKey(1), DestroyKey(1, G.DUE), RequestKey(5)}
  {
  }

  function Desk1(): Db {
    Desk(G.DoomedRow(), TaskPending, Paid(), 1000, Money(), {})
  }

  function Desk2(): Db {
    Desk(G.Row(), TaskCancelled, Paid(), 1000, Money(), {})
  }

  lemma OneDeferred()
    ensures DeferredDestroys(Desk1(), 1) == {3} && CanCommitCancel(Desk1(), 1)
  {
    assert DeferredDestroys(Desk1(), 1) == {3};
  }

  lemma CancelledDesk()
    ensures 1 in Desk1().instances && 3 in Desk1().tasks
    ensures var row := Desk1().instances[1].(status := Running, runtime := RuntimeRunning, destroyAt := None,
                                             reason := None);
            Desk1().(instances := Desk1().instances[1 := row],
                     tasks := Desk1().tasks[3 := Desk1().tasks[3].(status := TaskCancelled, lease := None)]) == Desk2()
  {
    G.OpenedRow();
    assert Tasks(TaskPending)[3 := DestroyTask(TaskCancelled)] == Tasks(TaskCancelled);
  }

  lemma CancelWrites()
    ensures CommitCancel(Desk1(), 1, RuntimeRunning) == Desk2()
  {
    hide CommitCancel, DeferredDestroys, CanCommitCancel, Desk1, Desk2;
    OneDeferred();
    CancelledDesk();
    SingleCancel(Desk1(), 1, RuntimeRunning, 3);
  }

  lemma CancelCommits()
    requires Claimable(Planned1(), 5, 3) && Claimable(Cancelled2(), 5, 3)
    ensures Apply(Working(Planned1(), Loaded, None), OfLife(Cancel(1))) == Working(Cancelled2(), Loaded, None)
  {
    hide CommitCancel, Apply, Claimable, Desk;
    WorkingDesk(G.DoomedRow(), TaskPending, Paid(), 1000, Money(), {}, Loaded, None);
    WorkingDesk(G.Row(), TaskCancelled, Paid(), 1000, Money(), {}, Loaded, None);
    CancelWrites();
    CancelStep(Working(Planned1(), Loaded, None), 1);
  }

  function Worker(): Ticket {
    Ticket(5, ClaimedRow(Reinstalling(), 3, LEASE))
  }

  lemma ServingPasses()
    ensures MayCallAgent(Desk2(), Worker(), {Running, Stopped}) && ExpectedStates(Reinstall) == {Running, Stopped}
  {
  }

  lemma WorkerFacts(w: World, phase: Phase, plan: Option<Instant>)
    requires Claimable(w, 5, 3) && w.db.tasks[5] == Reinstalling() && w.db.now == LEASE && !phase.Claimed?
    ensures var v := Working(w, phase, plan);
            Has(v, 3) && TicketOf(v.execs[3]) == Worker() && v.execs[3].phase == phase && v.execs[3].plan == plan
            && v.execs[3].seen == SEEN
            && FenceStates(v.execs[3]) == if plan.Some? then {DestroyScheduled} else {Running, Stopped}
  {
    hide Claimable;
  }

  lemma FirstFence()
    requires Claimable(Cancelled2(), 5, 3) && Cancelled2().db.tasks[5] == Reinstalling() && Cancelled2().db.now == LEASE
    ensures Apply(Working(Cancelled2(), Loaded, None), OfExec(Fence(3))) == Working(Cancelled2(), Cleared, None)
  {
    hide Apply, Claimable, MayCallAgent, Desk, FenceStates, Scene, Working;
    WorkerFacts(Cancelled2(), Loaded, None);
    WorkingDesk(G.Row(), TaskCancelled, Paid(), 1000, Money(), {}, Loaded, None);
    ServingPasses();
    FenceStep(Working(Cancelled2(), Loaded, None), 3);
    WorkingPhase(Cancelled2(), Loaded, Cleared, None);
  }

  lemma WorkingPhase(w: World, p: Phase, q: Phase, plan: Option<Instant>)
    requires Claimable(w, 5, 3) && !p.Claimed? && !q.Claimed?
    ensures 3 in Working(w, p, plan).execs && WithPhase(Working(w, p, plan), 3, q) == Working(w, q, plan)
  {
    hide Claimable;
    Rephase(w, 5, 3, p, q, SEEN, plan);
  }

  lemma ReadsResources()
    requires Claimable(Cancelled2(), 5, 3) && Cancelled2().db.tasks[5] == Reinstalling() && Cancelled2().db.now == LEASE
    ensures Apply(Working(Cancelled2(), Cleared, None), OfExec(ReadPlan(3)))
            == Working(Cancelled2(), Planned, Some(LEASE))
  {
    hide Apply, Claimable, Desk, FenceStates, Scene;
    WorkerFacts(Cancelled2(), Cleared, None);
    WorkingDesk(G.Row(), TaskCancelled, Paid(), 1000, Money(), {}, Cleared, None);
    PlanStep(Working(Cancelled2(), Cleared, None), 3);
    Replan(Cancelled2(), 5, 3, SEEN, Some(LEASE));
    DeskNow(G.Row(), TaskCancelled, Paid(), 1000, Money(), {});
  }

  lemma DeskNow(row: Instance, destroy: TaskStatus, order: Order, balance: int, entries: seq<Entry>,
                settled: set<(InstanceId, OrderId)>)
    ensures Desk(row, destroy, order, balance, entries, settled).now == LEASE
  {
  }

  function Desk3(): Db {
    Desk(RefundRow(), TaskCancelled, PaidBack(), 1000 + BACK, Refunded(), {(1, 1)})
  }

  function Desk4(): Db {
    Desk(RefundRow().(status := Running), TaskCancelled, PaidBack(), 1000 + BACK, Refunded(), {(1, 1)})
  }

  lemma CutoffNow()
    ensures RefundCutoffAt(LEASE) == CUT
  {
  }

  lemma RefundAccepted()
    ensures CanRefund(Desk2(), 1, [1])
  {
    hide RefundAmountForSegment, QuotedFor, RefundCutoffAt, LineFor, QuotedTotal, LinesTotal, Segments, ValidChain;
    CutoffNow();
    F.RefundTotals(Desk2());
    G.OpenedRow();
  }

  lemma RefundWrites()
    ensures RefundOrder(Desk2(), 1, [1]) == Desk3()
  {
    hide EvolvesQuietly, CanRefund, RefundAmountForSegment, RefundCutoffAt, RefundLines, Segments, Tasks;
    var db := Desk2();
    RefundAccepted();
    CutoffNow();
    F.RefundIsPriced();
    F.RefundTotals(db);
    F.OneLine(Books(db.orders, db.ledger, db.wallets[1]));
    G.OpenedRow();
  }

  lemma RefundCommits()
    requires Claimable(Cancelled2(), 5, 3) && Claimable(Refunded3(), 5, 3)
    ensures Apply(Working(Cancelled2(), Planned, Some(LEASE)), OfShop(RefundStep(1, [1])))
            == Working(Refunded3(), Planned, Some(LEASE))
  {
    hide Apply, Claimable, RefundOrder, Desk;
    WorkingDesk(G.Row(), TaskCancelled, Paid(), 1000, Money(), {}, Planned, Some(LEASE));
    WorkingDesk(RefundRow(), TaskCancelled, PaidBack(), 1000 + BACK, Refunded(), {(1, 1)}, Planned, Some(LEASE));
    RefundWrites();
    RefundedStep(Working(Cancelled2(), Planned, Some(LEASE)), 1, [1]);
  }

  lemma PlannedPasses()
    ensures MayCallAgent(Desk3(), Worker(), {DestroyScheduled})
  {
  }

  lemma SecondFence()
    requires Claimable(Refunded3(), 5, 3) && Refunded3().db.tasks[5] == Reinstalling() && Refunded3().db.now == LEASE
    ensures Apply(Working(Refunded3(), Planned, Some(LEASE)), OfExec(Fence(3)))
            == Working(Refunded3(), Cleared, Some(LEASE))
  {
    hide Apply, Claimable, MayCallAgent, Desk, FenceStates, Scene, Working;
    WorkerFacts(Refunded3(), Planned, Some(LEASE));
    WorkingDesk(RefundRow(), TaskCancelled, PaidBack(), 1000 + BACK, Refunded(), {(1, 1)}, Planned, Some(LEASE));
    PlannedPasses();
    FenceStep(Working(Refunded3(), Planned, Some(LEASE)), 3);
    WorkingPhase(Refunded3(), Planned, Cleared, Some(LEASE));
  }

  lemma ReportWrites()
    ensures ReportRuntime(Desk3(), 1, Reinstall, DestroyScheduled) == Desk4()
            && CanReport(Desk3(), 1, Reinstall, DestroyScheduled)
  {
    hide EvolvesQuietly, SameMoneyRows, Tasks;
    G.OpenedRow();
  }

  lemma ReinstallReports()
    requires Claimable(Refunded3(), 5, 3) && Claimable(Revived4(), 5, 3)
    requires Refunded3().db.tasks[5] == Reinstalling() && Refunded3().db.now == LEASE
    ensures Apply(Working(Refunded3(), Applied, Some(LEASE)), OfExec(Report(3)))
            == Working(Revived4(), Returned(Succeeds), Some(LEASE))
  {
    hide Apply, Claimable, Desk, ReportRuntime, CanReport;
    var w := Working(Refunded3(), Applied, Some(LEASE));
    WorkerFacts(Refunded3(), Applied, Some(LEASE));
    WorkingDesk(RefundRow(), TaskCancelled, PaidBack(), 1000 + BACK, Refunded(), {(1, 1)}, Applied, Some(LEASE));
    WorkingDesk(RefundRow().(status := Running), TaskCancelled, PaidBack(), 1000 + BACK, Refunded(), {(1, 1)},
                Returned(Succeeds), Some(LEASE));
    ReportWrites();
    ReportStep(w, 3);
  }

  // ---------- the refunded instance runs ----------

  /** The tables once the worker has finished. */
  function Idle(change: Change): Db {
    Desk4().(instances := map[1 := RefundRow().(status := Running, lock := None)],
             tasks := Tasks(TaskCancelled)[5 := FinishedRow(ClaimedRow(Reinstalling(), 3, LEASE), TaskDone, LEASE)],
             changes := map[1 := change])
  }

  lemma IdleAtLast()
    requires Claimable(Revived4(), 5, 3)
    ensures var w := Finished(Revived4(), 5, 3, Succeeds, SEEN, Some(LEASE));
            w.db == Idle(InFlightChange()) && w.recons == map[1 := Recon(2, G.Lost(), 1, Inspecting)]
            && w.discarded == {}
  {
    hide Claimable, Scene;
    SceneRows(RefundRow().(status := Running), TaskCancelled, PaidBack(), 1000 + BACK, Refunded(), {(1, 1)});
    SceneInstance(RefundRow().(status := Running), TaskCancelled, PaidBack(), 1000 + BACK, Refunded(), {(1, 1)});
    SceneKeys(RefundRow().(status := Running), TaskCancelled, PaidBack(), 1000 + BACK, Refunded(), {(1, 1)});
    var done := FinishedRow(ClaimedRow(Reinstalling(), 3, LEASE), TaskDone, LEASE);
    assert Revived4().db.tasks[5 := done] == Tasks(TaskCancelled)[5 := done];
  }

  lemma SceneFacts()
    ensures Cancelled2().db.now == LEASE && Refunded3().db.now == LEASE && Planned1().db.now == LEASE
  {
  }

  function Alone(w: World): World
    requires Claimable(w, 5, 3)
  {
    Finished(w, 5, 3, Succeeds, SEEN, Some(LEASE))
  }

  lemma ReachesRevived()
    ensures Claimable(Revived4(), 5, 3) && Reaches(Genesis(0), Alone(Revived4()))
  {
    hide Reaches, Apply, AtPhase, Finished, Planned1, Cancelled2, Refunded3, Revived4, Claimable, StatusOf;
    AllClaimable();
    SceneFacts();
    ReachesFirstRead();
    Then(Genesis(0), Working(Planned1(), Loaded, None), OfLife(Cancel(1)));
    CancelCommits();
    Then(Genesis(0), Working(Cancelled2(), Loaded, None), OfExec(Fence(3)));
    FirstFence();
    Then(Genesis(0), Working(Cancelled2(), Cleared, None), OfExec(ReadPlan(3)));
    ReadsResources();
    Then(Genesis(0), Working(Cancelled2(), Planned, Some(LEASE)), OfShop(RefundStep(1, [1])));
    RefundCommits();
    Then(Genesis(0), Working(Refunded3(), Planned, Some(LEASE)), OfExec(Fence(3)));
    SecondFence();
    Then(Genesis(0), Working(Refunded3(), Cleared, Some(LEASE)), OfExec(CallAgent(3, Succeeds)));
    Answered(Refunded3(), 5, 3, Succeeds, SEEN, Some(LEASE));
    Then(Genesis(0), Working(Refunded3(), Applied, Some(LEASE)), OfExec(Report(3)));
    ReinstallReports();
    FinishSteps(Revived4(), 5, 3, Succeeds, SEEN, Some(LEASE));
    Onward(Genesis(0), Working(Revived4(), Returned(Succeeds), Some(LEASE)), Alone(Revived4()));
  }

  /** A refunded order on a running instance, five minutes after the purchase. */
  lemma ReinstallRevives()
    ensures exists w: World ::
              Reaches(Genesis(0), w) && 1 in w.db.orders && w.db.orders[1].status == OrderRefunded && w.db.now == LEASE
              && w.db.orders[1].instance in w.db.instances && w.db.instances[w.db.orders[1].instance].status == Running
  {
    hide Reaches, Finished, Claimable, Scene;
    ReachesRevived();
    IdleAtLast();
    var w := Alone(Revived4());
    assert w.db.orders[1].status == OrderRefunded && w.db.instances[1].status == Running;
  }
}
