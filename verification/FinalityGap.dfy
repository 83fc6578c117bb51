/**
 A run in which a refunded instance comes back into service within one instant: a cancel request
 checked the reason of the destruction before the refund and committed after it.
 */
module FinalityGap {
  import opened Wrappers
  import opened Billing
  import opened Refunds
  import opened Schema
  import opened Evolution
  import opened TaskQueue
  import opened Lifecycle
  import opened Commerce
  import opened World
  import opened Traces
  import opened Counterexamples

  const CUT: Instant := 2 * DAY + 16 * HOUR
  const BACK: int := 2733
  const WEEK: Instant := GRACE

  // ---------- two cancel requests for one plan ----------

  function Row(): Instance {
    Deployed().db.instances[1]
  }

  function DestroyRow(at: Instant, status: TaskStatus, attempts: int, runAfter: Instant): Task {
    Task(1, Destroy, DestroyKey(1, at), status, attempts, runAfter, None, 0, None, SMALL)
  }

  function PlannedWith(views: map<int, View>): World {
    var w := Deployed();
    w.(db := w.db.(instances :=
                   map[1 := Row().(status := DestroyScheduled, reason := Some(Manual), destroyAt := Some(WEEK))],
                   tasks := w.db.tasks[2 := DestroyRow(WEEK, TaskPending, 0, WEEK)],
                   taskKeys := {CreateKey(1), DestroyKey(1, WEEK)}),
       views := views)
  }

  /** The first cancel committed; the second still believes in the manual plan. */
  function OneCancelLeft(): World {
    var w := Deployed();
    w.(db := w.db.(tasks := w.db.tasks[2 := DestroyRow(WEEK, TaskCancelled, 0, WEEK)],
                   taskKeys := {CreateKey(1), DestroyKey(1, WEEK)}),
       views := map[1 := CancelView(1, RuntimeRunning), 2 := CancelView(1, RuntimeRunning)])
  }

  lemma ReachesPlanned()
    ensures Reaches(Genesis(0), PlannedWith(map[]))
  {
    hide Reaches, EvolvesQuietly, Evolves;
    var w0 := Deployed();
    var w1 := w0.(db := w0.db.(instances :=
                               map[1 := Row().(status := DestroyScheduled, reason := Some(Manual),
                                               destroyAt := Some(WEEK))]));
    ReachesDeployed();
    Then(Genesis(0), w0, OfLife(Plan(1, Row())));
    assert Apply(w0, OfLife(Plan(1, Row()))) == w1;
    Then(Genesis(0), w1, OfLife(Schedule(2, 1, false, WEEK, WEEK)));
    assert Apply(w1, OfLife(Schedule(2, 1, false, WEEK, WEEK))) == PlannedWith(map[]);
  }

  lemma LoadsView(r: int, views: map<int, View>)
    requires r !in views
    ensures Apply(PlannedWith(views), OfLife(LoadCancel(r, 1)))
              == PlannedWith(views[r := CancelView(1, RuntimeRunning)])
  {
  }

  lemma CancelCommits()
    ensures Apply(PlannedWith(map[1 := CancelView(1, RuntimeRunning), 2 := CancelView(1, RuntimeRunning)]),
                  OfLife(Cancel(1))) == OneCancelLeft()
  {
    hide CommitCancel, EvolvesQuietly;
    CancelWrites(PlannedWith(map[]).db);
  }

  lemma CancelWrites(db: Db)
    requires db == PlannedWith(map[]).db
    ensures CommitCancel(db, 1, RuntimeRunning) == OneCancelLeft().db
  {
    hide CommitCancel;
    assert DeferredDestroys(db, 1) == {2};
    SingleCancel(db, 1, RuntimeRunning, 2);
  }

  lemma ReachesOneCancelLeft()
    ensures Reaches(Genesis(0), OneCancelLeft())
  {
    hide Reaches, Apply, PlannedWith, OneCancelLeft;
    var view := CancelView(1, RuntimeRunning);
    ReachesPlanned();
    Then(Genesis(0), PlannedWith(map[]), OfLife(LoadCancel(1, 1)));
    LoadsView(1, map[]);
    Then(Genesis(0), PlannedWith(map[][1 := view]), OfLife(LoadCancel(2, 1)));
    LoadsView(2, map[][1 := view]);
    assert map[][1 := view][2 := view] == map[1 := view, 2 := view];
    Then(Genesis(0), PlannedWith(map[1 := view, 2 := view]), OfLife(Cancel(1)));
    CancelCommits();
  }

  // ---------- the refund ----------

  function Whole(): Segment {
    Segment(1, true, 3000, 0, MONTH, true)
  }

  lemma RefundIsPriced()
    ensures RefundCutoffAt(0) == CUT && RefundAmountForSegment(Whole(), CUT) == BACK && QuotedFor(Whole(), CUT) == BACK
  {
    assert Seconds(0, MONTH) == 2_592_000;
    assert Seconds(CUT, MONTH) == 2_361_600;
    assert 3000 * 2_361_600 / 2_592_000 == 2733;
    assert DaysLeft(Whole(), CUT) == 27;
  }

  /** The order is refunded and the instance is to be destroyed at the cutoff. */
  function RefundedOnce(): World {
    var w := OneCancelLeft();
    w.(db := w.db.(instances :=
                   map[1 := Row().(status := DestroyScheduled, expiresAt := CUT, destroyAt := Some(CUT),
                                   reason := Some(Refund))],
                   orders := map[1 := Order(1, 1, 3000, OrderRefunded, 0, CUT)], wallets := map[1 := 7000 + BACK],
                   ledger := w.db.ledger + [Entry(1, BACK, 7000 + BACK, Some(1), None)], settlements := {(1, 1)}))
  }

  lemma RefundTotals(db: Db)
    requires 1 in db.orders && db.orders[1] == Order(1, 1, 3000, OrderActive, 0, MONTH)
    ensures Segments(db, [1]) == [Whole()] && ValidChain(Segments(db, [1]))
    ensures QuotedTotal(Segments(db, [1]), CUT) == BACK && LinesTotal(Segments(db, [1]), CUT) == BACK
  {
    RefundIsPriced();
    var s := [Whole()];
    assert s[..0] == [];
    assert QuotedTotal(s, CUT) == QuotedFor(s[0], CUT);
    assert LinesTotal(s, CUT) == LineFor(s[0], CUT);
    assert Segments(db, [1]) == s;
  }

  lemma OneLine(b: Books)
    requires 1 in b.orders
    ensures RefundLines(b, 1, [Whole()], CUT) == RefundLine(b, 1, Whole(), CUT)
  {
    assert [Whole()][..0] == [];
    assert RefundLines(b, 1, [], CUT) == b;
  }

  lemma RefundAccepted()
    ensures CanRefund(OneCancelLeft().db, 1, [1])
  {
    hide RefundAmountForSegment, QuotedFor, RefundCutoffAt, LineFor, QuotedTotal, LinesTotal, Segments, ValidChain;
    RefundIsPriced();
    RefundTotals(OneCancelLeft().db);
  }

  lemma RefundWrites()
    ensures RefundOrder(OneCancelLeft().db, 1, [1]) == RefundedOnce().db
  {
    hide EvolvesQuietly, CanRefund, RefundAmountForSegment, RefundCutoffAt, RefundLines, Segments;
    var db := OneCancelLeft().db;
    RefundAccepted();
    RefundIsPriced();
    RefundTotals(db);
    OneLine(Books(db.orders, db.ledger, db.wallets[1]));
  }

  // ---------- the stale cancel ----------

  /** The owner asks to destroy now; the task is queued at once. */
  function DestroyNow(): World {
    var w := RefundedOnce();
    w.(db := w.db.(tasks := w.db.tasks[3 := DestroyRow(CUT, TaskPending, 0, 0)],
                   taskKeys := w.db.taskKeys + {DestroyKey(1, CUT)}))
  }

  lemma QueuesNow()
    ensures ScheduleLifecycleTask(RefundedOnce().db, 3, 1, false, CUT, 0) == DestroyNow().db
  {
    hide EvolvesQuietly;
  }

  lemma NowIsPlanned()
    ensures ForPlan(DestroyNow(), 3, 2, CUT) && StatusOf(DestroyNow(), 3) == DestroyScheduled
  {
  }

  /** The worker's destroy failed; its retry is deferred by a minute. */
  function RetryLater(): World {
    var w := DestroyNow();
    w.(db := w.db.(tasks := w.db.tasks[3 := DestroyRow(CUT, TaskPending, 1, MINUTE)], tokens := map[1 := 1, 2 := 3]),
       execs := w.execs[2 := Exec(3, Some(ClaimedRow(DestroyRow(CUT, TaskPending, 0, 0), 2, 0)),
                                  Unlocked(Fails, TaskPending), Waiting,
                                  Some(CUT), Some(DestroyScheduled))],
       latest := map[1 := 2])
  }

  lemma DestroyDefers()
    requires Claimable(DestroyNow(), 3, 2)
    ensures Finished(DestroyNow(), 3, 2, Fails, Some(DestroyScheduled), Some(CUT)) == RetryLater()
  {
  }

  /** The refunded instance serves again. */
  function BackInService(): World {
    var w := RetryLater();
    w.(db := w.db.(tasks := w.db.tasks[3 := DestroyRow(CUT, TaskCancelled, 1, MINUTE)],
                   instances := map[1 := Row().(expiresAt := CUT)]))
  }

  lemma OneDeferred(db: Db)
    requires db == RetryLater().db
    ensures DeferredDestroys(db, 1) == {3} && CanCommitCancel(db, 1)
  {
    assert DeferredDestroys(db, 1) == {3};
  }

  lemma StaleCancelWrites(db: Db)
    requires db == RetryLater().db
    ensures CommitCancel(db, 1, RuntimeRunning) == BackInService().db
  {
    hide CommitCancel, DeferredDestroys, CanCommitCancel;
    OneDeferred(db);
    SingleCancel(db, 1, RuntimeRunning, 3);
  }

  lemma StaleCancelCommits()
    ensures Apply(RetryLater(), OfLife(Cancel(2))) == BackInService()
  {
    hide CommitCancel, Apply;
    StaleCancelWrites(RetryLater().db);
    CancelStep(RetryLater(), 2);
  }

  lemma ReachesRefunded()
    ensures Reaches(Genesis(0), DestroyNow())
  {
    hide Reaches, Apply, OneCancelLeft, RefundOrder, ScheduleLifecycleTask;
    ReachesOneCancelLeft();
    Then(Genesis(0), OneCancelLeft(), OfShop(RefundStep(1, [1])));
    RefundedStep(OneCancelLeft(), 1, [1]);
    RefundWrites();
    Then(Genesis(0), RefundedOnce(), OfLife(Schedule(3, 1, false, CUT, 0)));
    ScheduleStep(RefundedOnce(), 3, 1, false, CUT, 0);
    QueuesNow();
  }

  lemma ReachesBackInService()
    ensures Reaches(Genesis(0), BackInService())
  {
    hide Reaches, Apply, DestroyNow, RetryLater, BackInService, Finished, Undisturbed, Claimable;
    ReachesRefunded();
    NowIsPlanned();
    FailedDestroy(DestroyNow(), 3, 2, CUT);
    PlannedIsClaimable(DestroyNow(), 3, 2);
    DestroyDefers();
    Onward(Genesis(0), DestroyNow(), RetryLater());
    Then(Genesis(0), RetryLater(), OfLife(Cancel(2)));
    StaleCancelCommits();
  }

  lemma PlannedIsClaimable(w: World, t: TaskId, token: Token)
    requires Undisturbed(w, t, token)
    ensures Claimable(w, t, token)
  {
  }

  /** Refunds are not final in every run: the order is refunded, no time has passed, and its instance runs. */
  lemma RefundUndone()
    ensures exists w: World ::
              Reaches(Genesis(0), w) && 1 in w.db.orders && w.db.orders[1].status == OrderRefunded && w.db.now == 0
              && w.db.orders[1].instance in w.db.instances && w.db.instances[w.db.orders[1].instance].status == Running
  {
    hide Reaches;
    ReachesBackInService();
    var w := BackInService();
    assert w.db.orders[1].status == OrderRefunded && w.db.instances[1].status == Running;
  }
}
