/**
 Runs from the empty database in which a promise one might expect does not hold.
 */
module Counterexamples {
  import opened Wrappers
  import opened Billing
  import opened Schema
  import opened Evolution
  import opened TaskQueue
  import opened Lifecycle
  import opened Commerce
  import opened World
  import opened Traces

  const SMALL: Resources := Resources(1000, 1024)
  const LARGE: Resources := Resources(2000, 2048)
  const MONTH: int := 30 * DAY

  // ---------- a shop with one running instance ----------

  function BoughtUntil(end: Instant): World {
    var order := Order(1, 1, 3000, OrderDeploying, 0, end);
    var instance := Instance(1, 1, Deploying, RuntimeOther, SMALL, 1, end, None, None, None, None, None);
    var task := Task(1, Create, CreateKey(1), TaskPending, 0, 0, None, 0, None, SMALL);
    World(Db(0, map[1 := Node(true, false, true)], map[1 := instance], map[1 := task], map[], map[1 := order],
             map[1 := 7000],
             [Entry(1, 10000, 10000, None, None), Entry(1, -3000, 7000, Some(1), None)], map[], {CreateKey(1)}, {}, {}),
          map[], map[], map[], map[], {})
  }

  function Bought(): World {
    BoughtUntil(MONTH)
  }

  lemma ReachesBought(end: Instant)
    requires 0 < end
    ensures Reaches(Genesis(0), BoughtUntil(end))
  {
    hide Reaches, Evolves, EvolvesQuietly;
    var p := Purchase(1, 1, 1, 1, 1, SMALL, 3000, end);
    var w0 := Genesis(0);
    var w1 := w0.(db := w0.db.(wallets := map[1 := 0]));
    var w2 := w1.(db := w1.db.(wallets := map[1 := 10000], ledger := [Entry(1, 10000, 10000, None, None)]));
    var w3 := w2.(db := w2.db.(nodes := map[1 := Node(true, false, true)]));
    Stays(w0);
    Then(w0, w0, OfShop(SignIn(1)));
    assert Apply(w0, OfShop(SignIn(1))) == w1;
    Then(w0, w1, OfShop(Adjust(1, 10000)));
    assert Apply(w1, OfShop(Adjust(1, 10000))) == w2;
    Then(w0, w2, OfLease(AddNode(1, false)));
    assert Apply(w2, OfLease(AddNode(1, false))) == w3;
    Then(w0, w3, OfShop(Buy(p)));
    assert Apply(w3, OfShop(Buy(p))) == BoughtUntil(end);
  }

  function Deployed(): World {
    var order := Order(1, 1, 3000, OrderActive, 0, MONTH);
    var instance := Instance(1, 1, Running, RuntimeRunning, SMALL, 1, MONTH, None, None, None, None, None);
    var task := Task(1, Create, CreateKey(1), TaskDone, 1, 0, None, 0, None, SMALL);
    var row := Task(1, Create, CreateKey(1), TaskRunning, 1, 0, Some(Lease(1, LEASE)), 0, None, SMALL);
    World(Db(0, map[1 := Node(true, false, true)], map[1 := instance], map[1 := task], map[], map[1 := order],
             map[1 := 7000],
             [Entry(1, 10000, 10000, None, None), Entry(1, -3000, 7000, Some(1), None)], map[1 := 1], {CreateKey(1)},
               {}, {}),
          map[1 := Exec(1, Some(row), Unlocked(Succeeds, TaskDone), Waiting, None, Some(Deploying))], map[], map[],
            map[1 := 1], {})
  }

  /** The purchase once the container runs, and once the order is active too. */
  function Started(status: OrderStatus): World {
    var w := Bought();
    w.(db := w.db.(instances := map[1 := w.db.instances[1].(status := Running, runtime := RuntimeRunning)],
                   orders := map[1 := w.db.orders[1].(status := status)]))
  }

  lemma StartedIsClaimable(status: OrderStatus)
    ensures Claimable(Started(status), 1, 1) && Undisturbed(Bought(), 1, 1) && StatusOf(Bought(), 1) == Deploying
  {
  }

  lemma Reported()
    requires Undisturbed(Bought(), 1, 1) && Claimable(Started(OrderDeploying), 1, 1)
    ensures Apply(AtPhase(Bought(), 1, 1, Applied, Some(Deploying)), OfExec(Report(1)))
            == AtPhase(Started(OrderDeploying), 1, 1, Transitioned, Some(Deploying))
  {
    hide Apply, EvolvesQuietly;
    ReportStep(AtPhase(Bought(), 1, 1, Applied, Some(Deploying)), 1);
  }

  lemma Activated()
    requires Claimable(Started(OrderDeploying), 1, 1) && Claimable(Started(OrderActive), 1, 1)
    ensures Apply(AtPhase(Started(OrderDeploying), 1, 1, Transitioned, Some(Deploying)), OfSaga(ActivateExec(1)))
            == AtPhase(Started(OrderActive), 1, 1, Returned(Succeeds), Some(Deploying))
  {
    hide Apply, BooksOnly;
    ActivateStep(AtPhase(Started(OrderDeploying), 1, 1, Transitioned, Some(Deploying)), 1);
  }

  lemma IsDeployed()
    requires Claimable(Started(OrderActive), 1, 1)
    ensures Finished(Started(OrderActive), 1, 1, Succeeds, Some(Deploying)) == Deployed()
  {
  }

  lemma ReachesDeployed()
    ensures Reaches(Genesis(0), Deployed())
  {
    hide Reaches, Apply, AtPhase, Finished, Started, Bought, Deployed, Undisturbed, Claimable;
    var w, seen := Bought(), Some(Deploying);
    ReachesBought(MONTH);
    StartedIsClaimable(OrderDeploying);
    StartedIsClaimable(OrderActive);
    BoughtTask();
    ReachesAgent(w, 1, 1);
    Onward(Genesis(0), w, AtPhase(w, 1, 1, Cleared, seen));
    Answered(w, 1, 1, Succeeds, seen);
    Then(Genesis(0), AtPhase(w, 1, 1, Cleared, seen), OfExec(CallAgent(1, Succeeds)));
    Then(Genesis(0), AtPhase(w, 1, 1, Applied, seen), OfExec(Report(1)));
    Reported();
    Then(Genesis(0), AtPhase(Started(OrderDeploying), 1, 1, Transitioned, seen), OfSaga(ActivateExec(1)));
    Activated();
    FinishSteps(Started(OrderActive), 1, 1, Succeeds, seen);
    Onward(Genesis(0), AtPhase(Started(OrderActive), 1, 1, Returned(Succeeds), seen),
           Finished(Started(OrderActive), 1, 1, Succeeds, seen));
    IsDeployed();
  }

  lemma BoughtTask()
    ensures Bought() == BoughtUntil(MONTH)
    ensures 1 in Bought().db.tasks && Bought().db.tasks[1].action.Create? && Claimable(Bought(), 1, 1)
  {
  }

  // ---------- an expired plan for a service that goes on ----------

  /** The expiry loop has seen the service end. */
  function Overdue(): World {
    var w := Deployed();
    w.(db := w.db.(now := MONTH + 1), views := map[1 := ExpiryView(1, Running)])
  }

  /** The owner has renewed meanwhile. */
  function Renewed(): World {
    var w := Overdue();
    w.(db := w.db.(instances := map[1 := w.db.instances[1].(expiresAt := 3 * MONTH)],
                   orders := w.db.orders[2 := Order(1, 1, 3000, OrderActive, MONTH + 1, 3 * MONTH)],
                     wallets := map[1 := 4000],
                   ledger := w.db.ledger + [Entry(1, -3000, 4000, Some(2), None)]))
  }

  lemma RenewalWrites()
    ensures RenewWithWallet(Overdue().db, Renewal(1, 2, 2, 3000, 3 * MONTH)) == Renewed().db
  {
    hide EvolvesQuietly, Evolves, BlocksRenewal;
    var db := Overdue().db;
    forall t | t in db.tasks ensures !BlocksRenewal(db, t, 1) {
      OneTask(t);
    }
  }

  lemma OneTask(t: TaskId)
    requires t in Overdue().db.tasks
    ensures 1 in Overdue().db.instances && !BlocksRenewal(Overdue().db, t, 1)
  {
  }

  lemma ExpiryWrites()
    ensures ServiceEnded(Deployed().db.(now := MONTH + 1), 1)
    ensures var v := ExpireInstance(Renewed().db, 1, Running);
            v.now == MONTH + 1 && 1 in v.instances && v.instances[1].expiresAt == 3 * MONTH
            && ExpiredPlan(v.instances[1])
  {
    hide EvolvesQuietly, SameMoneyRows;
  }

  /**
   An expired plan does not mean that the service is over: the expiry loop reads the rows first and
   looks only at the status again when it writes, so a renewal in between is planned away.
   */
  lemma PrematureExpiry()
    ensures exists w: World ::
              Reaches(Genesis(0), w) && 1 in w.db.instances && ExpiredPlan(w.db.instances[1])
              && w.db.now < w.db.instances[1].expiresAt
  {
    hide Reaches, Apply, Deployed, ServiceEnded, ExpireInstance, RenewWithWallet;
    var w0 := Deployed();
    var w1 := w0.(db := w0.db.(now := w0.db.now + (MONTH + 1)));
    var renewal := Renewal(1, 2, 2, 3000, 3 * MONTH);
    ReachesDeployed();
    Then(Genesis(0), w0, OfLease(Tick(MONTH + 1)));
    TickStep(w0, MONTH + 1);
    DeployedAtZero();
    ExpiryWrites();
    Then(Genesis(0), w1, OfLife(LoadExpiry(1, 1)));
    LoadExpiryStep(w1, 1, 1);
    assert w1.(views := w1.views[1 := ExpiryView(1, Running)]) == Overdue();
    Then(Genesis(0), Overdue(), OfShop(Renew(renewal)));
    RenewStep(Overdue(), renewal);
    RenewalWrites();
    assert Overdue().(db := Renewed().db) == Renewed();
    Then(Genesis(0), Renewed(), OfLife(Expire(1)));
    ExpireStep(Renewed(), 1);
    assert Reaches(Genesis(0), Renewed().(db := ExpireInstance(Renewed().db, 1, Running)));
  }

  lemma DeployedAtZero()
    ensures Deployed().db.now == 0 && Deployed().views == map[]
    ensures 1 in Deployed().db.instances && Deployed().db.instances[1].status == Running
  {
  }
}
