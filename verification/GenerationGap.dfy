/**
 A run in which the original resize passes the fence while its change is being compensated: the
 cancel was requested while the instance was scheduled for destruction, so nothing was bumped.
 */
module GenerationGap {
  import opened Wrappers
  import opened Billing
  import opened Schema
  import opened Evolution
  import opened TaskQueue
  import opened Lifecycle
  import opened PlanChange
  import opened World
  import opened Traces
  import opened Counterexamples
  import opened EvidenceGap

  const DUE: Instant := LEASE + GRACE

  function Row(): Instance {
    Opened().db.instances[1].(lock := Some(Lock(2, 2, LEASE)))
  }

  function Resize(status: TaskStatus): Task {
    Task(1, Action.Resize, ResizeKey(1), status, 1, LEASE, None, 2, Some(1), LARGE)
  }

  function Lost(): Task {
    ClaimedRow(Attempted(0), 2, 0)
  }

  /** The worker vanished after its claim; the resize is in review. */
  function Recovered(): World {
    var w := Opened();
    w.(db := w.db.(now := LEASE, instances := map[1 := Row()], tasks := w.db.tasks[2 := Resize(TaskReview)],
                   tokens := map[1 := 1, 2 := 2]),
       execs := w.execs[2 := Exec(2, None, Claimed, Waiting, None, None)],
       recons := map[1 := Recon(2, Lost(), 1, Inspecting)], latest := map[1 := 2])
  }

  lemma ReachesRecovered()
    ensures Reaches(Genesis(0), Recovered())
  {
    hide Reaches, Apply, Opened, AtPhase, Recovered;
    ReachesOpened();
    OpenedUndisturbed();
    Then(Genesis(0), Opened(), OfLease(Claim(2, 2)));
    ClaimStep(Opened(), 2, 2);
    Then(Genesis(0), AtPhase(Opened(), 2, 2, Claimed, None), OfLease(Tick(LEASE)));
    LeaseRunsOut();
    var late := Apply(AtPhase(Opened(), 2, 2, Claimed, None), OfLease(Tick(LEASE)));
    Then(Genesis(0), late, OfLease(Recover(2, Running, 1)));
  }

  lemma OpenedUndisturbed()
    ensures Undisturbed(Opened(), 2, 2)
  {
  }

  lemma LeaseRunsOut()
    requires Undisturbed(Opened(), 2, 2)
    ensures Apply(Apply(AtPhase(Opened(), 2, 2, Claimed, None), OfLease(Tick(LEASE))), OfLease(Recover(2, Running, 1)))
              == Recovered()
  {
    hide QueueOnly;
    var w := AtPhase(Opened(), 2, 2, Claimed, None);
    var late := w.(db := w.db.(now := LEASE));
    assert Apply(w, OfLease(Tick(LEASE))) == late;
    assert LeaseExpired(late.db, 2);
  }

  /** Destruction is planned, with its deferred task. */
  function Doomed(): World {
    var w := Recovered();
    w.(db := w.db.(instances :=
                   map[1 := Row().(status := DestroyScheduled, reason := Some(Manual), destroyAt := Some(DUE))],
                   tasks := w.db.tasks[3 := Task(1, Destroy, DestroyKey(1, DUE), TaskPending, 0, DUE, None, 0, None,
                                                 SMALL)],
                   taskKeys := w.db.taskKeys + {DestroyKey(1, DUE)}))
  }

  function DoomedRow(): Instance {
    Row().(status := DestroyScheduled, reason := Some(Manual), destroyAt := Some(DUE))
  }

  function PlanMade(): World {
    var w := Recovered();
    w.(db := w.db.(instances := map[1 := DoomedRow()]))
  }

  lemma PlanWrites(db: Db)
    requires db == Recovered().db
    ensures PlanDestroy(db, 1, Row()) == PlanMade().db
  {
    hide EvolvesQuietly, Opened;
    OpenedRow();
  }

  lemma MakesPlan()
    ensures Apply(Recovered(), OfLife(Plan(1, Row()))) == PlanMade()
  {
    hide Apply, PlanDestroy;
    PlanWrites(Recovered().db);
    PlanningStep(Recovered(), 1, Row());
  }

  lemma SchedulesIt()
    ensures Apply(PlanMade(), OfLife(Schedule(3, 1, false, DUE, DUE))) == Doomed()
  {
    hide EvolvesQuietly;
  }

  lemma IsDoomed()
    ensures Reaches(Recovered(), Doomed())
  {
    hide Reaches, Apply, Recovered, PlanMade, Doomed;
    Stays(Recovered());
    Then(Recovered(), Recovered(), OfLife(Plan(1, Row())));
    MakesPlan();
    Then(Recovered(), PlanMade(), OfLife(Schedule(3, 1, false, DUE, DUE)));
    SchedulesIt();
  }

  /** The owner cancels the change: it compensates, under the old generation. */
  function Compensated(views: map<int, View>): World {
    var w := Doomed();
    w.(db := w.db.(tasks := w.db.tasks[4 := Task(1, CompensateResize, CompensateKey(1), TaskPending, 0, LEASE, None, 2,
                                                 Some(1), SMALL)],
                   changes := map[1 := InFlightChange().(status := InReview, saga := Compensating,
                                                         funds := FundsReserved, compensation := Some(4))],
                   taskKeys := w.db.taskKeys + {CompensateKey(1)}),
       views := views)
  }

  lemma NothingPending(db: Db)
    requires db == Doomed().db
    ensures CancelPendingResizes(db, 1) == db
  {
    hide QueueOnly;
    assert CancelPendingResizes(db, 1).tasks == db.tasks;
  }

  lemma CompensationQueues(db: Db)
    requires db == Doomed().db
    ensures RequestCancel(db, 1, 4) == Compensated(map[]).db
  {
    hide EvolvesQuietly, LifeKept, CancelPendingResizes;
    NothingPending(db);
  }

  lemma CompensationStarts()
    ensures Apply(Doomed(), OfSaga(RequestCompensation(1, 4))) == Compensated(map[])
  {
    hide RequestCancel, Apply;
    CompensationQueues(Doomed().db);
    RequestStep(Doomed(), 1, 4);
  }

  lemma ViewLoads()
    ensures Apply(Compensated(map[]), OfLife(LoadCancel(1, 1))) == Compensated(map[1 := CancelView(1, RuntimeRunning)])
  {
    hide Apply, MayCancelDestroy;
    MayCancel();
    LoadStep(Compensated(map[]), 1, 1);
  }

  lemma MayCancel()
    ensures MayCancelDestroy(Compensated(map[]).db, 1)
  {
  }

  function Awaiting(): World {
    Compensated(map[1 := CancelView(1, RuntimeRunning)])
  }

  /** The destruction is cancelled, the instance serves. */
  function Spared(): World {
    var w := Awaiting();
    w.(db := w.db.(instances := map[1 := Row()],
                   tasks := w.db.tasks[3 := Task(1, Destroy, DestroyKey(1, DUE), TaskCancelled, 0, DUE, None, 0, None,
                                                 SMALL)]))
  }

  /** An administrator resumes the reviewed resize. */
  function Requeued(): World {
    var w := Spared();
    w.(db := w.db.(tasks := w.db.tasks[2 := Resize(TaskPending)]))
  }

  lemma WaitingRows()
    ensures var db := Awaiting().db;
            db.tasks.Keys == {1, 2, 3, 4} && db.tasks[1] == Deployed().db.tasks[1] && db.tasks[2] == Resize(TaskReview)
            && db.tasks[3] == Task(1, Destroy, DestroyKey(1, DUE), TaskPending, 0, DUE, None, 0, None, SMALL)
            && db.tasks[4]
               == Task(1, CompensateResize, CompensateKey(1), TaskPending, 0, LEASE, None, 2, Some(1), SMALL)
            && db.instances == map[1 := Row().(status := DestroyScheduled, reason := Some(Manual),
                                               destroyAt := Some(DUE))] && db.now == LEASE
  {
  }

  lemma OneDeferred()
    ensures DeferredDestroys(Awaiting().db, 1) == {3} && CanCommitCancel(Awaiting().db, 1)
  {
    hide Awaiting, Row;
    WaitingRows();
    var db := Awaiting().db;
    forall t ensures t in DeferredDestroys(db, 1) <==> t == 3 {
      if t in db.tasks {
        assert t == 1 || t == 2 || t == 3 || t == 4;
      }
    }
  }

  lemma SparingWrites(db: Db)
    requires db == Awaiting().db
    ensures CommitCancel(db, 1, RuntimeRunning) == Spared().db
  {
    hide CommitCancel, Awaiting, DeferredDestroys, Opened;
    WaitingRows();
    OneDeferred();
    SingleCancel(db, 1, RuntimeRunning, 3);
    OpenedRow();
    assert db.instances[1 := Row()] == map[1 := Row()];
  }

  lemma OpenedRow()
    ensures Row()
            == Instance(1, 1, Running, RuntimeRunning, SMALL, 2, MONTH, None, None, None, None, Some(Lock(2, 2, LEASE)))
  {
  }

  lemma IsSpared()
    ensures Apply(Awaiting(), OfLife(Cancel(1))) == Spared()
  {
    hide CommitCancel, Apply, Doomed;
    SparingWrites(Awaiting().db);
    CancelStep(Awaiting(), 1);
  }

  lemma IsResumed()
    ensures Apply(Spared(), OfDesk(Resume(2))) == Requeued()
  {
    hide Apply, Awaiting, Evolves, LifeKept;
    WaitingRows();
    ResumeStep(Spared(), 2);
  }

  lemma ResumedIsUndisturbed()
    ensures Undisturbed(Requeued(), 2, 3)
  {
  }

  lemma RequeuedRuns()
    requires Undisturbed(Requeued(), 2, 3)
    ensures StatusOf(Requeued(), 2) == Running
  {
  }

  lemma PassesTheFence()
    requires Undisturbed(Requeued(), 2, 3)
    ensures var w := AtPhase(Requeued(), 2, 3, Cleared, Some(Running));
            MayCallAgent(w.db, Ticket(2, ClaimedRow(Resize(TaskPending), 3, LEASE)), {Running, Stopped})
            && 1 in w.db.changes && w.db.changes[1].saga == Compensating && w.db.changes[1].task == 2
  {
  }

  /** The original resize may call the Agent while its change is compensating. */
  lemma OriginalResizeReturns()
    ensures exists w: World, tk: Ticket ::
              Reaches(Genesis(0), w) && 1 in w.db.changes && w.db.changes[1].saga == Compensating
              && tk.id == w.db.changes[1].task && MayCallAgent(w.db, tk, {Running, Stopped})
  {
    hide Reaches, Apply, Recovered, Doomed, Compensated, Spared, Requeued, AtPhase, Undisturbed, MayCallAgent;
    var view := CancelView(1, RuntimeRunning);
    ReachesRecovered();
    IsDoomed();
    Onward(Genesis(0), Recovered(), Doomed());
    Then(Genesis(0), Doomed(), OfSaga(RequestCompensation(1, 4)));
    CompensationStarts();
    Then(Genesis(0), Compensated(map[]), OfLife(LoadCancel(1, 1)));
    ViewLoads();
    Then(Genesis(0), Awaiting(), OfLife(Cancel(1)));
    IsSpared();
    Then(Genesis(0), Spared(), OfDesk(Resume(2)));
    IsResumed();
    ResumedIsUndisturbed();
    ReachesAgent(Requeued(), 2, 3);
    RequeuedRuns();
    Onward(Genesis(0), Requeued(), AtPhase(Requeued(), 2, 3, Cleared, Some(Running)));
    PassesTheFence();
  }
}
