/**
 A run in which the exhausted-retry path gives a reservation back although the last inspection
 saw the target: the reconcile resumed the change between the worker's two statements.
 */
module EvidenceGap {
  import opened Wrappers
  import opened Billing
  import opened Schema
  import opened Evolution
  import opened TaskQueue
  import opened PlanChange
  import opened World
  import opened Traces
  import opened Counterexamples

  function Item(): QuoteItem {
    QuoteItem(1, 3000, 3000, 6000, 0, MONTH, 0, MONTH)
  }

  function Upgrade(): Opening {
    Opening(1, 2, 1, 1, Quote(0, [Item()], 6000, 3000, 1, FULL_BPS), LARGE, true, 6000)
  }

  lemma ItemIsPriced()
    ensures ItemFor(SourceOrder(1, 3000, 0, MONTH), 0, 6000) == Item()
  {
  }

  function InFlightChange(): Change {
    Change(1, 1, 2, SMALL, LARGE, 6000, [Item()], Processing, Applying, FundsPending, None, None)
  }

  /** The reservation is held, the generation bumped, the resize queued. */
  function Opened(): World {
    var w := Deployed();
    w.(db := w.db.(instances := map[1 := w.db.instances[1].(generation := 2)],
                   tasks := w.db.tasks[2 := Task(1, Resize, ResizeKey(1), TaskPending, 0, 0, None, 2, Some(1), LARGE)],
                   changes := map[1 := InFlightChange()], wallets := map[1 := 1000],
                   ledger := w.db.ledger + [Entry(1, -6000, 1000, None, Some(1))],
                   taskKeys := {CreateKey(1), ResizeKey(1)}, businessKeys := {PendingPurchase(1)}))
  }

  lemma CanUpgrade()
    ensures CanOpenChange(Deployed().db, Upgrade())
  {
    ItemIsPriced();
    var items := [Item()];
    assert items[..0] == [];
    assert SumCharges(items) == 6000 && SumRefunds(items) == 3000;
  }

  lemma UpgradeWrites()
    ensures OpenChange(Deployed().db, Upgrade()) == Opened().db
  {
    hide EvolvesQuietly, CanOpenChange;
    CanUpgrade();
  }

  lemma ReachesOpened()
    ensures Reaches(Genesis(0), Opened())
  {
    hide Reaches, Apply, OpenChange;
    ReachesDeployed();
    Then(Genesis(0), Deployed(), OfSaga(Open(Upgrade())));
    OpenStep(Deployed(), Upgrade());
    UpgradeWrites();
  }

  // ---------- three failed attempts ----------

  /** The resize row after n failed attempts. */
  function Attempted(n: nat): Task {
    Task(1, Resize, ResizeKey(1), if n < 3 then TaskPending else TaskReview, n,
         if n == 0 then 0 else if n == 1 then MINUTE else 4 * MINUTE, None, 2, Some(1), LARGE)
  }

  function Attempt(n: nat): Exec {
    Exec(2, Some(ClaimedRow(Attempted(n), n + 2, 0)), Unlocked(Fails, if n < 2 then TaskPending else TaskReview),
         Waiting,
         None, Some(Running))
  }

  function Tried(n: nat): World
    requires n <= 3
  {
    if n == 0 then Opened()
    else
      var w := Tried(n - 1);
      w.(db := w.db.(tasks := w.db.tasks[2 := Attempted(n)], tokens := w.db.tokens[n + 1 := 2]),
         execs := w.execs[n + 1 := Attempt(n - 1)], latest := map[1 := n + 1])
  }

  /** What stays the same while the resize is attempted. */
  lemma {:induction false} TriedFacts(n: nat)
    requires n <= 3
    ensures var w := Tried(n);
            && w.db.now == 0 && w.db.instances == Opened().db.instances && w.db.nodes == Opened().db.nodes
            && w.db.changes == Opened().db.changes
            && 2 in w.db.tasks && w.db.tasks[2] == Attempted(n)
            && (forall k :: k in w.db.tokens <==> 1 <= k <= n + 1) && (forall k :: k in w.execs <==> 1 <= k <= n + 1)
            && w.latest.Keys == {1} && w.db.wallets == map[1 := 1000] && w.recons == map[] && w.discarded == {}
            && (n > 0 ==> w.execs[n + 1] == Attempt(n - 1))
  {
    hide Opened, Attempt, Attempted;
    OpenedFacts();
    if n > 0 {
      TriedFacts(n - 1);
    }
  }

  lemma OpenedFacts()
    ensures var w := Opened();
            && w.db.now == 0 && 2 in w.db.tasks && w.db.tasks[2] == Attempted(0)
            && (forall k :: k in w.db.tokens <==> k == 1) && (forall k :: k in w.execs <==> k == 1)
            && w.latest.Keys == {1} && w.db.wallets == map[1 := 1000] && w.recons == map[] && w.discarded == {}
  {
  }

  lemma AttemptFails(n: nat)
    requires n < 3
    ensures Reaches(Tried(n), Tried(n + 1))
  {
    hide Reaches, AtPhase, Evolves, CanClaim;
    var w := Tried(n);
    TriedFacts(n);
    AttemptUndisturbed(n);
    FailedRound(w, 2, n + 2);
    assert StatusOf(w, 2) == Running;
    var i := w.db.instances[1];
    assert w.db.instances[1 := i.(lock := None)] == w.db.instances;
    assert w.latest[1 := n + 2] == map[1 := n + 2];
    var row := ClaimedRow(Attempted(n), n + 2, 0);
    assert FinishedRow(row, FinishedStatus(row, Fails), 0) == Attempted(n + 1);
    assert Finished(w, 2, n + 2, Fails, Some(Running)) == Tried(n + 1);
  }

  lemma AttemptUndisturbed(n: nat)
    requires n < 3
    ensures Undisturbed(Tried(n), 2, n + 2)
  {
    hide Tried;
    TriedFacts(n);
  }

  lemma ReachesExhausted()
    ensures Reaches(Genesis(0), Tried(3))
  {
    hide Reaches, Tried;
    ReachesOpened();
    assert Tried(0) == Opened() by { NotTried(); }
    AttemptFails(0);
    AttemptFails(1);
    AttemptFails(2);
    Onward(Genesis(0), Tried(0), Tried(1));
    Onward(Genesis(0), Tried(1), Tried(2));
    Onward(Genesis(0), Tried(2), Tried(3));
  }

  lemma NotTried()
    ensures Tried(0) == Opened()
  {
  }

  // ---------- the gap ----------

  /** The worker stands between marking the change and failing the deployment. */
  function Marked3(): World {
    var w := Tried(3);
    w.(db := w.db.(changes :=
                   map[1 := InFlightChange().(status := InReview, saga := Observing, funds := FundsBlocked)]),
       execs := w.execs[4 := Attempt(2).(phase := Marked(Fails))])
  }

  lemma ReachesMarked()
    ensures Reaches(Genesis(0), Marked3())
  {
    hide Reaches, Apply;
    ReachesExhausted();
    Then(Genesis(0), Tried(3), OfSaga(MarkObserving(4)));
    Marks();
  }

  lemma MarkStep(w: World, e: Token)
    requires Has(w, e) && MarksChange(w.execs[e]) && w.execs[e].ticket.value.change.Some?
    ensures var x := w.execs[e];
            Apply(w, OfSaga(MarkObserving(e)))
            == WithPhase(w.(db := MarkBlocked(w.db, x.ticket.value.change.value)), e, Marked(x.phase.outcome))
  {
    hide MarkBlocked, BooksOnly, SameTickets, SameRenewals;
  }

  lemma Marks()
    ensures Apply(Tried(3), OfSaga(MarkObserving(4))) == Marked3()
  {
    hide Apply, Tried, BooksOnly;
    TriedFacts(3);
    MarkStep(Tried(3), 4);
  }

  /** A reconcile inspects the instance, sees the target and makes the change processable again. */
  function ResumedOnTarget(): World {
    var w := Marked3();
    w.(db := w.db.(changes :=
                   map[1 := InFlightChange().(saga := Observing, funds := FundsBlocked, observed := Some(LARGE))]),
       recons := map[1 := Recon(2, Attempted(3), 1, Resumed(LARGE))])
  }

  function Reconciled(c: Change, phase: ReconPhase): World {
    var w := Marked3();
    w.(db := w.db.(changes := map[1 := c]), recons := map[1 := Recon(2, Attempted(3), 1, phase)])
  }

  function BlockedChange(): Change {
    InFlightChange().(status := InReview, saga := Observing, funds := FundsBlocked)
  }

  lemma ReconcileStarts()
    ensures Apply(Marked3(), OfRecon(StartRecon(1, 2))) == Reconciled(BlockedChange(), Inspecting)
  {
    hide Tried, Attempt;
    TriedFacts(3);
  }

  lemma ReconcileSees()
    ensures Apply(Reconciled(BlockedChange(), Inspecting), OfRecon(Inspect(1, Some(LARGE))))
            == Reconciled(BlockedChange().(observed := Some(LARGE)), Saw(LARGE))
  {
    hide Tried, Attempt, Attempted, Apply;
    var w := Reconciled(BlockedChange(), Inspecting);
    InspectionSees(w, 1, LARGE);
    assert w.recons[1 := w.recons[1].(phase := Saw(LARGE))] == map[1 := w.recons[1].(phase := Saw(LARGE))];
    assert w.db.changes[1 := w.db.changes[1].(observed := Some(LARGE))]
      == map[1 := w.db.changes[1].(observed := Some(LARGE))];
  }

  lemma ReconcileResumes()
    ensures Apply(Reconciled(BlockedChange().(observed := Some(LARGE)), Saw(LARGE)), OfRecon(Decide(1)))
              == ResumedOnTarget()
  {
    hide Tried, Attempt, Attempted, Apply;
    var w := Reconciled(BlockedChange().(observed := Some(LARGE)), Saw(LARGE));
    DecisionResumes(w, 1);
    assert w.recons[1 := w.recons[1].(phase := Resumed(LARGE))] == map[1 := w.recons[1].(phase := Resumed(LARGE))];
    assert w.db.changes[1 := w.db.changes[1].(status := Processing)]
      == map[1 := w.db.changes[1].(status := Processing)];
  }

  lemma ReachesResumed()
    ensures Reaches(Genesis(0), ResumedOnTarget())
  {
    hide Reaches, Apply, Reconciled, Marked3, ResumedOnTarget;
    ReachesMarked();
    Then(Genesis(0), Marked3(), OfRecon(StartRecon(1, 2)));
    ReconcileStarts();
    Then(Genesis(0), Reconciled(BlockedChange(), Inspecting), OfRecon(Inspect(1, Some(LARGE))));
    ReconcileSees();
    Then(Genesis(0), Reconciled(BlockedChange().(observed := Some(LARGE)), Saw(LARGE)), OfRecon(Decide(1)));
    ReconcileResumes();
  }

  /**
   The reservation can be released with the target as the only resources ever observed, without
   compensation and without an administrator: the guard of the failing statement is the status alone.
   */
  lemma ReleaseWithoutEvidence()
    ensures exists w :: Reaches(Genesis(0), w) && 1 in w.db.changes && w.discarded == {}
                        && w.db.changes[1].status == ChangeFailed && w.db.changes[1].funds == FundsReleased
                        && w.db.changes[1].observed == Some(w.db.changes[1].target)
                        && w.db.changes[1].target != w.db.changes[1].source
                        && w.db.changes[1].compensation == None && 1 in w.db.wallets && w.db.wallets[1] == 7000
  {
    hide Reaches, Apply, ResumedOnTarget;
    ReachesResumed();
    Then(Genesis(0), ResumedOnTarget(), OfSaga(FailDeployment(4)));
    FailingReleases();
  }

  lemma FailingCalls(w: World, e: Token)
    requires Has(w, e) && w.execs[e].phase.Marked? && FailsChange(w.execs[e])
    ensures var v := Apply(w, OfSaga(FailDeployment(e)));
            v.db == FailChange(w.db, w.execs[e].ticket.value.change.value) && v.discarded == w.discarded
  {
    hide FailChange, BooksOnly, SameTickets, SameRenewals;
  }

  lemma ResumedFacts()
    ensures var w := ResumedOnTarget();
            && Has(w, 4) && w.execs[4].phase.Marked? && FailsChange(w.execs[4])
            && w.execs[4].ticket.value.change == Some(1)
            && w.discarded == {} && w.db.wallets == map[1 := 1000]
            && w.db.changes
               == map[1 := InFlightChange().(saga := Observing, funds := FundsBlocked, observed := Some(LARGE))]
  {
    hide Tried;
    TriedFacts(3);
  }

  lemma HoldReturns(db: Db)
    requires db.wallets == map[1 := 1000]
    requires db.changes
             == map[1 := InFlightChange().(saga := Observing, funds := FundsBlocked, observed := Some(LARGE))]
    ensures var after := FailChange(db, 1);
            after.wallets == map[1 := 7000]
            && after.changes == map[1 := InFlightChange().(status := ChangeFailed, saga := SagaCancelled,
                                                           funds := FundsReleased, observed := Some(LARGE))]
  {
    hide BooksOnly;
  }

  lemma FailingReleases()
    ensures var w := Apply(ResumedOnTarget(), OfSaga(FailDeployment(4)));
            w.discarded == {} && w.db.changes
              == map[1 := InFlightChange().(status := ChangeFailed, saga := SagaCancelled, funds := FundsReleased,
                                                                           observed := Some(LARGE))]
            && w.db.wallets == map[1 := 7000]
  {
    hide Apply, ResumedOnTarget, FailChange, FailsChange;
    ResumedFacts();
    FailingCalls(ResumedOnTarget(), 4);
    HoldReturns(ResumedOnTarget().db);
  }
}
