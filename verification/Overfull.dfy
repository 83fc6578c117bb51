/**
 The revived instance costs the operator money: its change in flight settles, so one order is
 paid back twice, and a refund of the replacement leaves a wallet with more than was ever put in.
 */
module Overfull {
  import opened Wrappers
  import opened Billing
  import opened Refunds
  import opened Schema
  import opened Evolution
  import opened TaskQueue
  import opened Commerce
  import opened PlanChange
  import opened World
  import opened Ledger
  import opened Traces
  import opened Counterexamples
  import opened EvidenceGap
  import opened ReinstallGap

  const REST: int := 5466

  /** The world after the reinstall, with other tables and reconciles. */
  function After(db: Db, recons: map<int, Recon>): World
    requires Claimable(Revived4(), 5, 3)
  {
    Alone(Revived4()).(db := db, recons := recons)
  }

  function Reviewed(): Change {
    InFlightChange().(status := InReview, saga := Observing, funds := FundsBlocked)
  }

  function Seen(): Change {
    Reviewed().(observed := Some(LARGE))
  }

  function First(phase: ReconPhase): Recon {
    Recon(2, G.Lost(), 1, phase)
  }

  function Second(phase: ReconPhase): Recon {
    Recon(2, G.Resize(TaskReview), 1, phase)
  }

  lemma StartsAfter()
    requires Claimable(Revived4(), 5, 3)
    ensures Alone(Revived4()) == After(Idle(InFlightChange()), map[1 := First(Inspecting)])
  {
    hide Claimable, Finished, Scene;
    IdleAtLast();
  }

  // ---------- single steps, from anywhere ----------

  lemma NodeAway(w: World, r: int)
    requires r in w.recons && w.recons[r].phase.Inspecting?
    ensures Apply(w, OfRecon(Inspect(r, None))) ==
            w.(db := MarkBlocked(w.db, w.recons[r].change), recons := w.recons[r := w.recons[r].(phase := ReconDone)])
  {
    hide MarkBlocked, BooksOnly, SameRows;
  }

  lemma ReconcileStarts(w: World, r: int, t: TaskId)
    requires r !in w.recons && CanStartRecon(w.db, t)
    ensures Apply(w, OfRecon(StartRecon(r, t))) ==
            w.(recons := w.recons[r := Recon(t, w.db.tasks[t], w.db.tasks[t].change.value, Inspecting)])
  {
    hide CanStartRecon;
    assert t in w.db.tasks && w.db.tasks[t].change.Some? by { Startable(w.db, t); }
  }

  lemma Startable(db: Db, t: TaskId)
    requires CanStartRecon(db, t)
    ensures t in db.tasks && db.tasks[t].change.Some?
  {
  }

  lemma ReconcileSettles(w: World, r: int, ids: seq<OrderId>)
    requires r in w.recons && w.recons[r].phase.Resumed? && w.recons[r].change in w.db.changes
    requires w.recons[r].phase.seen == w.db.changes[w.recons[r].change].target
    requires CompletePlanChange(w.db, Ticket(w.recons[r].task, w.recons[r].row), ids).Committed?
    ensures Apply(w, OfRecon(SettleRecon(r, ids))) ==
            w.(db := CompletePlanChange(w.db, Ticket(w.recons[r].task, w.recons[r].row), ids).db,
               recons := w.recons[r := w.recons[r].(phase := Closing(true))])
  {
    hide CompletePlanChange, BooksOnly, SameRows, FailChange;
  }

  // ---------- the settlement ----------

  lemma BlockWrites()
    ensures MarkBlocked(Idle(InFlightChange()), 1) == Idle(Reviewed())
  {
    hide BooksOnly, Desk4, Tasks;
  }

  lemma IdleFacts(change: Change)
    ensures var db := Idle(change);
            && db.tasks[2] == G.Resize(TaskReview) && 2 in db.tasks && db.changes == map[1 := change] && db.now == LEASE
            && db.instances == map[1 := RefundRow().(status := Running, lock := None)]
            && db.nodes == map[1 := Node(true, false, true)]
            && db.orders == map[1 := PaidBack()] && db.wallets == map[1 := 1000 + BACK] && db.ledger == Refunded()
            && db.businessKeys == {PendingPurchase(1)} && db.settlements == {(1, 1)}
  {
  }

  function Settled7(): seq<Entry> {
    [Entry(1, 10000, 10000, None, None), Entry(1, -3000, 7000, Some(1), None), Entry(1, -6000, 1000, None, Some(1)),
     Entry(1, BACK, 1000 + BACK, Some(1), None), Entry(1, 6000, 7000 + BACK, None, Some(1)),
     Entry(1, -6000, 1000 + BACK, Some(2), Some(1)), Entry(1, 3000, 4000 + BACK, Some(1), Some(1))]
  }

  function Replacement(): Order {
    Order(1, 1, 6000, OrderActive, 0, MONTH)
  }

  function Resuming(): Change {
    Seen().(status := Processing)
  }

  lemma ItemsSettle(db: Db)
    requires db.ledger == Refunded() && db.wallets == map[1 := 1000 + BACK] && db.businessKeys == {PendingPurchase(1)}
    requires db.orders == map[1 := PaidBack()]
    ensures var r := SettleItems(OpeningBooks(db, Resuming(), 1), Resuming(), 1, Resuming().items, [2]);
            r.Some? && r.value.books.ledger == Settled7() && r.value.books.balance == 4000 + BACK
            && r.value.books.orders == map[1 := PaidBack(), 2 := Replacement()]
  {
    hide OrdersEvolve;
    var start := OpeningBooks(db, Resuming(), 1);
    assert Resuming().items[..0] == [] && [2][..0] == [];
    assert SettleItems(start, Resuming(), 1, [], []) == Some(start);
    assert SettleItems(start, Resuming(), 1, Resuming().items, [2]) == SettleItem(start, Resuming(), 1, Item(), 2);
  }

  function SettledDb(): Db {
    var s := CompletePlanChange(Idle(Resuming()), Ticket(2, G.Resize(TaskReview)), [2]);
    if s.Committed? then s.db else Idle(Resuming())
  }

  lemma ChangeSettles()
    ensures CompletePlanChange(Idle(Resuming()), Ticket(2, G.Resize(TaskReview)), [2]).Committed?
    ensures var db := CompletePlanChange(Idle(Resuming()), Ticket(2, G.Resize(TaskReview)), [2]).db;
            && db.ledger == Settled7() && db.wallets == map[1 := 4000 + BACK]
            && db.orders == map[1 := PaidBack(), 2 := Replacement()]
            && db.instances == map[1 := RefundRow().(status := Running, lock := None, resources := LARGE)]
            && db.now == LEASE
            && db.settlements == {(1, 1)}
  {
    hide Idle, BooksOnly, SettleItems, OpeningBooks;
    IdleFacts(Resuming());
    ItemsSettle(Idle(Resuming()));
  }

  function OnlyFirst(phase: ReconPhase): map<int, Recon> {
    map[1 := First(phase)]
  }

  function Both(phase: ReconPhase): map<int, Recon> {
    map[1 := First(ReconDone), 2 := Second(phase)]
  }

  lemma Blocks()
    requires Claimable(Revived4(), 5, 3)
    ensures Apply(After(Idle(InFlightChange()), OnlyFirst(Inspecting)), OfRecon(Inspect(1, None)))
              == After(Idle(Reviewed()), OnlyFirst(ReconDone))
  {
    hide Apply, Claimable, Idle, MarkBlocked, Alone;
    NodeAway(After(Idle(InFlightChange()), OnlyFirst(Inspecting)), 1);
    BlockWrites();
    assert OnlyFirst(Inspecting)[1 := First(ReconDone)] == OnlyFirst(ReconDone);
  }

  lemma StartsAgain()
    requires Claimable(Revived4(), 5, 3)
    ensures Apply(After(Idle(Reviewed()), OnlyFirst(ReconDone)), OfRecon(StartRecon(2, 2)))
            == After(Idle(Reviewed()), Both(Inspecting))
  {
    hide Apply, Claimable, Idle, Alone, CanStartRecon;
    CanStart();
    IdleFacts(Reviewed());
    ReconcileStarts(After(Idle(Reviewed()), OnlyFirst(ReconDone)), 2, 2);
    assert OnlyFirst(ReconDone)[2 := Second(Inspecting)] == Both(Inspecting);
  }

  lemma SeesTarget()
    requires Claimable(Revived4(), 5, 3)
    ensures Apply(After(Idle(Reviewed()), Both(Inspecting)), OfRecon(Inspect(2, Some(LARGE))))
            == After(Idle(Seen()), Both(Saw(LARGE)))
  {
    hide Apply, Claimable, Idle, Alone;
    IdleFacts(Reviewed());
    InspectionSees(After(Idle(Reviewed()), Both(Inspecting)), 2, LARGE);
    IdleChanges(Reviewed(), Seen());
    assert Both(Inspecting)[2 := Second(Saw(LARGE))] == Both(Saw(LARGE));
  }

  lemma ResumesChange()
    requires Claimable(Revived4(), 5, 3)
    ensures Apply(After(Idle(Seen()), Both(Saw(LARGE))), OfRecon(Decide(2)))
            == After(Idle(Resuming()), Both(Resumed(LARGE)))
  {
    hide Apply, Claimable, Idle, Alone, Resumable;
    IdleFacts(Seen());
    SeenIsResumable();
    DecisionResumes(After(Idle(Seen()), Both(Saw(LARGE))), 2);
    IdleChanges(Seen(), Resuming());
    assert Both(Saw(LARGE))[2 := Second(Resumed(LARGE))] == Both(Resumed(LARGE));
  }

  lemma SettlesChange()
    requires Claimable(Revived4(), 5, 3)
    ensures Apply(After(Idle(Resuming()), Both(Resumed(LARGE))), OfRecon(SettleRecon(2, [2])))
            == After(SettledDb(), Both(Closing(true)))
  {
    hide Apply, Claimable, Idle, Alone, CompletePlanChange;
    IdleFacts(Resuming());
    ChangeSettles();
    ReconcileSettles(After(Idle(Resuming()), Both(Resumed(LARGE))), 2, [2]);
    assert Both(Resumed(LARGE))[2 := Second(Closing(true))] == Both(Closing(true));
  }

  lemma ReachesSettled()
    ensures Claimable(Revived4(), 5, 3) && Reaches(Genesis(0), After(SettledDb(), Both(Closing(true))))
  {
    hide Reaches, Apply, Claimable, Idle, SettledDb, After;
    ReachesRevived();
    StartsAfter();
    Then(Genesis(0), After(Idle(InFlightChange()), OnlyFirst(Inspecting)), OfRecon(Inspect(1, None)));
    Blocks();
    Then(Genesis(0), After(Idle(Reviewed()), OnlyFirst(ReconDone)), OfRecon(StartRecon(2, 2)));
    StartsAgain();
    Then(Genesis(0), After(Idle(Reviewed()), Both(Inspecting)), OfRecon(Inspect(2, Some(LARGE))));
    SeesTarget();
    Then(Genesis(0), After(Idle(Seen()), Both(Saw(LARGE))), OfRecon(Decide(2)));
    ResumesChange();
    Then(Genesis(0), After(Idle(Resuming()), Both(Resumed(LARGE))), OfRecon(SettleRecon(2, [2])));
    SettlesChange();
  }

  lemma IdleChanges(a: Change, b: Change)
    ensures Idle(a).(changes := Idle(a).changes[1 := b]) == Idle(b)
  {
  }

  lemma CanStart()
    ensures CanStartRecon(Idle(Reviewed()), 2)
  {
  }

  lemma SeenIsResumable()
    ensures Resumable(Idle(Seen()), 1)
  {
  }

  // ---------- two credits, and more than was put in ----------

  lemma Sums()
    ensures var l := Settled7();
            Total(l, CreditsTo(1)) == 2 && Total(l, OfOrder(1)) == BACK && Total(l, ByAdmin(1)) == 10000
  {
    var l := Settled7();
    var credits := [0, 0, 0, 0, 1, 1, 1, 2];
    var nets := [0, 0, -3000, -3000, BACK - 3000, BACK - 3000, BACK - 3000, BACK];
    var k := 0;
    while k < 7
      invariant 0 <= k <= 7
      invariant Total(l[..k], CreditsTo(1)) == credits[k] && Total(l[..k], OfOrder(1)) == nets[k]
      invariant Total(l[..k], ByAdmin(1)) == if k == 0 then 0 else 10000
    {
      assert l[..k + 1] == l[..k] + [l[k]];
      Appended(l[..k], l[k]);
      k := k + 1;
    }
    assert l[..7] == l;
  }

  /** The order of 3000 is credited by the refund and by the exchange, for more than was paid. */
  lemma OrderCreditedTwice()
    ensures exists w: World ::
              Reaches(Genesis(0), w) && Total(w.db.ledger, CreditsTo(1)) == 2 && Total(w.db.ledger, OfOrder(1)) > 0
  {
    hide Reaches, Claimable, CompletePlanChange, Settled7, Idle;
    ReachesSettled();
    ChangeSettles();
    Sums();
    var w := After(SettledDb(), Both(Closing(true)));
    assert w.db.ledger == Settled7();
  }

  function Tail(): Segment {
    Segment(2, true, 6000, 0, MONTH, true)
  }

  lemma TailIsPriced()
    ensures RefundCutoffAt(LEASE) == F.CUT && RefundAmountForSegment(Tail(), F.CUT) == REST
            && QuotedFor(Tail(), F.CUT) == REST
  {
    CutoffNow();
    assert Seconds(0, MONTH) == 2_592_000;
    assert Seconds(F.CUT, MONTH) == 2_361_600;
    assert 6000 * 2_361_600 / 2_592_000 == 5466;
    assert DaysLeft(Tail(), F.CUT) == 27;
  }

  lemma TailTotals(db: Db)
    requires 2 in db.orders && db.orders[2] == Replacement()
    ensures Segments(db, [2]) == [Tail()] && ValidChain(Segments(db, [2]))
    ensures QuotedTotal(Segments(db, [2]), F.CUT) == REST && LinesTotal(Segments(db, [2]), F.CUT) == REST
  {
    TailIsPriced();
    var s := [Tail()];
    assert s[..0] == [];
    assert QuotedTotal(s, F.CUT) == QuotedFor(s[0], F.CUT);
    assert LinesTotal(s, F.CUT) == LineFor(s[0], F.CUT);
    assert Segments(db, [2]) == s;
  }

  lemma TailAccepted()
    ensures CanRefund(SettledDb(), 2, [2])
  {
    hide CompletePlanChange, Idle, RefundAmountForSegment, QuotedFor, RefundCutoffAt, LineFor, QuotedTotal, LinesTotal;
    hide Segments, ValidChain;
    ChangeSettles();
    TailIsPriced();
    TailTotals(SettledDb());
  }

  lemma TailWrites()
    ensures var db := RefundOrder(SettledDb(), 2, [2]);
            db.wallets == map[1 := 4000 + BACK + REST]
            && db.ledger == Settled7() + [Entry(1, REST, 4000 + BACK + REST, Some(2), None)]
  {
    hide SettledDb, EvolvesQuietly, CanRefund, RefundAmountForSegment, RefundCutoffAt, Segments, Settled7;
    SettledRows();
    TailAccepted();
    TailIsPriced();
    TailTotals(SettledDb());
    var b := Books(SettledDb().orders, SettledDb().ledger, SettledDb().wallets[1]);
    assert [Tail()][..0] == [];
    assert RefundLines(b, 1, [], F.CUT) == b;
    assert RefundLines(b, 1, [Tail()], F.CUT) == RefundLine(b, 1, Tail(), F.CUT);
  }

  lemma SettledRows()
    ensures var db := SettledDb();
            db.ledger == Settled7() && db.wallets == map[1 := 4000 + BACK]
            && db.orders == map[1 := PaidBack(), 2 := Replacement()]
            && db.now == LEASE
  {
    hide CompletePlanChange, Idle, Settled7;
    ChangeSettles();
  }

  /** A wallet of 12199 of which administrators put in 10000. */
  lemma WalletOverfull()
    ensures exists w: World ::
              Reaches(Genesis(0), w) && 1 in w.db.wallets && w.db.wallets[1] == 12199
              && Total(w.db.ledger, ByAdmin(1)) == 10000
  {
    hide Reaches, Apply, Claimable, SettledDb, Settled7, RefundOrder, Alone;
    ReachesSettled();
    var w := After(SettledDb(), Both(Closing(true)));
    Then(Genesis(0), w, OfShop(RefundStep(2, [2])));
    RefundedStep(w, 2, [2]);
    TailWrites();
    Sums();
    Appended(Settled7(), Entry(1, REST, 4000 + BACK + REST, Some(2), None));
    var v := Apply(w, OfShop(RefundStep(2, [2])));
    assert v.db.wallets[1] == 12199;
  }
}
