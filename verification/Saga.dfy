/**
 The saga over runs: terminal changes stay, compensation only ends in a release, and every
 release or settlement is backed by what its step saw.
 */
module Saga {
  import opened Wrappers
  import opened Schema
  import opened Evolution
  import opened TaskQueue
  import opened Commerce
  import opened PlanChange
  import opened World
  import opened Footprints
  import opened Ledger
  import opened Accounting

  // ---------- what each transaction does to change rows ----------

  function Released(row: Change): Change {
    row.(status := ChangeFailed, saga := SagaCancelled, funds := FundsReleased)
  }

  lemma ReleaseRows(db: Db, c: ChangeId)
    requires LedgerInv(db) && c in db.changes
    ensures FailChange(db, c).changes
            == if db.changes[c].status == Processing then db.changes[c := Released(db.changes[c])] else db.changes
    ensures CancelSettlement(db, c).changes
            == if db.changes[c].saga != SagaCancelled then db.changes[c := Released(db.changes[c])] else db.changes
  {
    hide BooksInv, SagaInv, EvolvesQuietly, LifeKept;
    OpenChangeFacts(db, c);
  }

  lemma CompensationRows(db: Db, tk: Ticket)
    requires LedgerInv(db)
    ensures CompleteCompensation(db, tk).changes ==
            if tk.row.change.Some? && CanCompensate(db, tk, tk.row.change.value)
            then db.changes[tk.row.change.value := Released(db.changes[tk.row.change.value])] else db.changes
  {
    hide LedgerInv, EvolvesQuietly, LifeKept, CancelSettlement;
    if tk.row.change.Some? && CanCompensate(db, tk, tk.row.change.value) {
      var row := db.instances[tk.row.instance];
      var applied := if Serving(row.status)
                     then PutInstance(db, tk.row.instance, row.(resources := tk.row.resources))
                     else db;
      AppliedKeeps(db, applied, tk);
      ReleaseRows(applied, tk.row.change.value);
    }
  }

  lemma AppliedKeeps(db: Db, applied: Db, tk: Ticket)
    requires LedgerInv(db) && tk.row.instance in db.instances
    requires var row := db.instances[tk.row.instance];
             applied == if Serving(row.status)
                        then PutInstance(db, tk.row.instance, row.(resources := tk.row.resources))
                        else db
    ensures LedgerInv(applied)
  {
    hide LedgerInv, Evolves;
    ApplyingSourceEvolves(db, tk);
    ElsewhereKeeps(db, applied);
  }

  lemma RequestCancelRows(db: Db, c: ChangeId, t: TaskId)
    requires LedgerInv(db)
    ensures RequestCancel(db, c, t).changes ==
            if !CanRequestCancel(db, c) then db.changes
            else if ObservedAtSource(db, c) then db.changes[c := Released(db.changes[c])]
            else if !CanInsertTask(db, t, CompensateKey(c)) then db.changes
            else db.changes[c := db.changes[c].(status := InReview, saga := Compensating, funds := FundsReserved,
                                                compensation := Some(t))]
  {
    hide LedgerInv, EvolvesQuietly, LifeKept, CancelSettlement, ObservedAtSource;
    if CanRequestCancel(db, c) {
      OpenChangeFacts(db, c);
      if ObservedAtSource(db, c) {
        var bumped := BumpGeneration(db, db.changes[c].instance);
        BumpKeeps(db, db.changes[c].instance);
        ReleaseRows(bumped, c);
      }
    }
  }

  lemma BumpKeeps(db: Db, i: InstanceId)
    requires LedgerInv(db) && i in db.instances
    ensures LedgerInv(BumpGeneration(db, i))
  {
    hide LedgerInv, Evolves;
    ElsewhereKeeps(db, BumpGeneration(db, i));
  }

  lemma SettlementRows(db: Db, tk: Ticket, ids: seq<OrderId>)
    ensures var r := CompletePlanChange(db, tk, ids);
            && (r.Committed? ==>
                  var c := tk.row.change.value;
                  tk.row.change.Some? && c in db.changes && db.changes[c].status == Processing
                  && r.db.changes == db.changes[c := db.changes[c].(status := ChangeSucceeded, saga := Settled,
                                                                    funds := FundsSettled)])
  {
    hide BooksOnly, SettleItems, OpeningBooks;
  }

  // ---------- one step ----------

  /** The step gives the change's reservation back, and this is what it went by. */
  ghost predicate ReleasesBy(w: World, s: Step, c: ChangeId)
    requires c in w.db.changes
  {
    match s
    case OfSaga(RequestCompensation(d, _)) => d == c && CanRequestCancel(w.db, c) && ObservedAtSource(w.db, c)
    case OfSaga(CompensateExec(e)) =>
      Has(w, e) && w.execs[e].phase.Applied? && w.execs[e].ticket.value.action.CompensateResize?
      && w.execs[e].ticket.value.change == Some(c)
      && CanCompensate(w.db, TicketOf(w.execs[e]), c)
    case OfSaga(FailDeployment(e)) =>
      Has(w, e) && FailsChange(w.execs[e]) && w.execs[e].ticket.value.change == Some(c)
      && w.db.changes[c].status == Processing
    case OfSaga(SettleDiscarded(t)) =>
      t in w.discarded && t in w.db.tasks && w.db.tasks[t].action.Resize? && w.db.tasks[t].change == Some(c)
      && w.db.changes[c].status == Processing
    case OfRecon(SettleRecon(r, _)) =>
      r in w.recons && w.recons[r].change == c && w.recons[r].phase.Resumed? && w.db.changes[c].status == Processing
      && w.recons[r].phase.seen != w.db.changes[c].target
    case _ => false
  }

  /** The step settles the change, and this is what it went by. */
  ghost predicate SettlesBy(w: World, s: Step, c: ChangeId)
    requires c in w.db.changes
  {
    match s
    case OfSaga(SettleExec(e, _)) =>
      Has(w, e) && w.execs[e].phase.Applied? && w.execs[e].ticket.value.action.Resize?
      && w.execs[e].ticket.value.change == Some(c)
      && w.db.changes[c].status == Processing
    case OfRecon(SettleRecon(r, _)) =>
      r in w.recons && w.recons[r].row.change == Some(c) && w.recons[r].phase.Resumed?
      && w.db.changes[c].status == Processing
      && w.recons[r].change in w.db.changes && w.recons[r].phase.seen == w.db.changes[w.recons[r].change].target
    case _ => false
  }

  /** The step makes a reviewed change processable again, after an inspection that matched. */
  predicate ResumesBy(w: World, s: Step, c: ChangeId)
    requires c in w.db.changes
  {
    s.OfRecon? && s.r.Decide? && s.r.recon in w.recons
    && var x := w.recons[s.r.recon];
       x.change == c && x.phase.Saw? && Resumable(w.db, c)
       && (x.phase.seen == w.db.changes[c].target || x.phase.seen == w.db.changes[c].source)
  }

  /** What a step may do to a change's three columns. */
  ghost predicate SagaMove(w: World, s: Step, c: ChangeId, y: Change)
    requires c in w.db.changes
  {
    var x := w.db.changes[c];
    && (x.status != ChangeFailed ==> (y.status == ChangeFailed <==> ReleasesBy(w, s, c)))
    && (x.status != ChangeSucceeded && y.status == ChangeSucceeded ==> SettlesBy(w, s, c))
    && (x.status != Processing && y.status == Processing ==> ResumesBy(w, s, c))
    && (!InFlight(x) ==> y.status == x.status && y.saga == x.saga && y.funds == x.funds)
    && (x.saga == Compensating && y.status != ChangeFailed ==>
          y.saga == Compensating && y.status == InReview && y.funds == FundsReserved
          && y.compensation == x.compensation)
  }

  lemma SagaOf(db: Db, c: ChangeId)
    requires LedgerInv(db) && c in db.changes
    ensures SagaOk(db.changes[c])
  {
    assert Conserved(db, c);
  }

  lemma SettleMoves(w: World, s: SagaStep, c: ChangeId)
    requires s.SettleExec?
    requires LedgerInv(w.db) && c in w.db.changes
    ensures var v := ApplySaga(w, s).db; c in v.changes && SagaMove(w, OfSaga(s), c, v.changes[c])
  {
    hide LedgerInv, EvolvesQuietly, LifeKept, OpenChange, RequestCancel, CompletePlanChange, CompleteCompensation;
    hide FailChange, CanOpenChange, ObservedAtSource;
    SagaOf(w.db, c);
    if Has(w, s.exec) { SettlementRows(w.db, TicketOf(w.execs[s.exec]), s.ids); }
  }

  lemma CompensateMoves(w: World, s: SagaStep, c: ChangeId)
    requires s.CompensateExec?
    requires LedgerInv(w.db) && c in w.db.changes
    ensures var v := ApplySaga(w, s).db; c in v.changes && SagaMove(w, OfSaga(s), c, v.changes[c])
  {
    hide LedgerInv, EvolvesQuietly, LifeKept, OpenChange, RequestCancel, CompletePlanChange, CompleteCompensation;
    hide FailChange, CanOpenChange, ObservedAtSource;
    SagaOf(w.db, c);
    if Has(w, s.exec) { CompensationRows(w.db, TicketOf(w.execs[s.exec])); }
  }

  lemma BlockMoves(w: World, s: SagaStep, c: ChangeId)
    requires s.BlockExec? || s.MarkObserving?
    requires LedgerInv(w.db) && c in w.db.changes
    ensures var v := ApplySaga(w, s).db; c in v.changes && SagaMove(w, OfSaga(s), c, v.changes[c])
  {
    hide LedgerInv, EvolvesQuietly, LifeKept, OpenChange, RequestCancel, CompletePlanChange, CompleteCompensation;
    hide FailChange, CanOpenChange, ObservedAtSource, Block, CanRequestCancel, CanCompensate;
    SagaOf(w.db, c);
    if Has(w, s.exec) { BlockRows(w, w.execs[s.exec].ticket.value.change); }
  }

  lemma FailMoves(w: World, s: SagaStep, c: ChangeId)
    requires s.FailDeployment?
    requires LedgerInv(w.db) && c in w.db.changes
    ensures var v := ApplySaga(w, s).db; c in v.changes && SagaMove(w, OfSaga(s), c, v.changes[c])
  {
    hide LedgerInv, EvolvesQuietly, LifeKept, OpenChange, RequestCancel, CompletePlanChange, CompleteCompensation;
    hide FailChange, CanOpenChange, ObservedAtSource, Block, CanRequestCancel, CanCompensate, FailsChange;
    SagaOf(w.db, c);
    if Has(w, s.exec) && FailsChange(w.execs[s.exec]) {
      FailsNamedChange(w.execs[s.exec]);
      FailRows(w.db, w.execs[s.exec].ticket.value.change.value);
    }
  }

  lemma FailsNamedChange(x: Exec)
    requires FailsChange(x)
    ensures x.ticket.Some? && x.ticket.value.change.Some? && x.phase.Marked?
  {
  }

  lemma DiscardRows(w: World, t: TaskId, c: ChangeId)
    requires LedgerInv(w.db) && c in w.db.changes
    ensures var v := ApplySaga(w, SettleDiscarded(t)).db;
            c in v.changes
            && (v.changes[c] == w.db.changes[c] || v.changes[c] == Blocked(w.db.changes[c])
                || (v.changes[c] == Released(w.db.changes[c]) && ReleasesBy(w, OfSaga(SettleDiscarded(t)), c)))
            && (ReleasesBy(w, OfSaga(SettleDiscarded(t)), c) ==> v.changes[c] == Released(w.db.changes[c]))
  {
    hide LedgerInv, EvolvesQuietly, LifeKept, FailChange, Block, Released, Blocked;
    if t in w.db.tasks && w.db.tasks[t].change.Some? {
      FailRows(w.db, w.db.tasks[t].change.value);
      BlockRows(w, w.db.tasks[t].change);
    }
  }

  lemma DiscardMoves(w: World, s: SagaStep, c: ChangeId)
    requires s.SettleDiscarded?
    requires LedgerInv(w.db) && c in w.db.changes
    ensures var v := ApplySaga(w, s).db; c in v.changes && SagaMove(w, OfSaga(s), c, v.changes[c])
  {
    hide LedgerInv, ApplySaga;
    SagaOf(w.db, c);
    DiscardRows(w, s.task, c);
  }

  lemma OpenMoves(w: World, s: SagaStep, c: ChangeId)
    requires s.Open? || s.RequestCompensation?
    requires LedgerInv(w.db) && c in w.db.changes
    ensures var v := ApplySaga(w, s).db; c in v.changes && SagaMove(w, OfSaga(s), c, v.changes[c])
  {
    hide LedgerInv, EvolvesQuietly, LifeKept, OpenChange, RequestCancel, CompletePlanChange, CompleteCompensation;
    hide FailChange, CanOpenChange, ObservedAtSource;
    SagaOf(w.db, c);
    if s.Open? {
      if CanOpenChange(w.db, s.opening) { OpenEffect(w.db, s.opening); } else { OpenRefused(w.db, s.opening); }
    } else {
      RequestCancelRows(w.db, s.change, s.task);
    }
  }

  lemma ActivateMoves(w: World, s: SagaStep, c: ChangeId)
    requires s.ActivateExec?
    requires LedgerInv(w.db) && c in w.db.changes
    ensures var v := ApplySaga(w, s).db; c in v.changes && SagaMove(w, OfSaga(s), c, v.changes[c])
  {
    hide LedgerInv, BooksOnly, ActivateOrders, SameTickets, SameRenewals;
    SagaOf(w.db, c);
  }

  lemma SagaStepMoves(w: World, s: SagaStep, c: ChangeId)
    requires LedgerInv(w.db) && c in w.db.changes
    ensures var v := ApplySaga(w, s).db; c in v.changes && SagaMove(w, OfSaga(s), c, v.changes[c])
  {
    hide *;
    if s.SettleExec? {
      SettleMoves(w, s, c);
    } else if s.CompensateExec? {
      CompensateMoves(w, s, c);
    } else if s.BlockExec? || s.MarkObserving? {
      BlockMoves(w, s, c);
    } else if s.FailDeployment? {
      FailMoves(w, s, c);
    } else if s.SettleDiscarded? {
      DiscardMoves(w, s, c);
    } else if s.ActivateExec? {
      ActivateMoves(w, s, c);
    } else {
      OpenMoves(w, s, c);
    }
  }

  function Blocked(row: Change): Change {
    if row.status == Processing then row.(status := InReview, saga := Observing, funds := FundsBlocked) else row
  }

  lemma BlockRows(w: World, d: Option<ChangeId>)
    ensures Block(w, d).db.changes ==
            if d.Some? && d.value in w.db.changes then w.db.changes[d.value := Blocked(w.db.changes[d.value])]
              else w.db.changes
  {
    hide BooksOnly;
  }

  lemma FailRows(db: Db, c: ChangeId)
    requires LedgerInv(db)
    ensures FailChange(db, c).changes
            == if c in db.changes && db.changes[c].status == Processing
               then db.changes[c := Released(db.changes[c])]
               else db.changes
  {
    hide LedgerInv, BooksOnly;
    if c in db.changes {
      ReleaseRows(db, c);
    }
  }

  lemma SettleReconRows(w: World, r: int, ids: seq<OrderId>, c: ChangeId)
    requires LedgerInv(w.db) && c in w.db.changes
    ensures var v := ApplySettleRecon(w, r, ids).db;
            var x, s := w.db.changes[c], OfRecon(SettleRecon(r, ids));
            c in v.changes
            && (v.changes[c] == x || (v.changes[c] == Released(x) && ReleasesBy(w, s, c))
                || (x.status == Processing && SettlesBy(w, s, c)
                    && v.changes[c] == x.(status := ChangeSucceeded, saga := Settled, funds := FundsSettled)))
            && (ReleasesBy(w, s, c) ==> v.changes[c] == Released(x))
  {
    hide LedgerInv, EvolvesQuietly, LifeKept, CompletePlanChange, FailChange, Released;
    if r in w.recons {
      SettlementRows(w.db, Ticket(w.recons[r].task, w.recons[r].row), ids);
      FailRows(w.db, w.recons[r].change);
    }
  }

  lemma SettleReconMoves(w: World, s: ReconStep, c: ChangeId)
    requires s.SettleRecon?
    requires LedgerInv(w.db) && c in w.db.changes
    ensures var v := ApplyRecon(w, s).db; c in v.changes && SagaMove(w, OfRecon(s), c, v.changes[c])
  {
    hide LedgerInv, ApplySettleRecon;
    SagaOf(w.db, c);
    SettleReconRows(w, s.recon, s.ids, c);
  }

  /** Rows that inspections and decisions may leave. */
  predicate Inspected(x: Change, y: Change) {
    y == x || y == Blocked(x) || y == x.(observed := y.observed)
    || (y == x.(status := Processing) && (x.status == Processing || (x.status == InReview && x.funds == FundsBlocked)))
  }

  lemma InspectedMoves(w: World, s: ReconStep, c: ChangeId, y: Change)
    requires (s.Inspect? || s.Decide?) && c in w.db.changes && SagaOk(w.db.changes[c]) && Inspected(w.db.changes[c], y)
    requires w.db.changes[c].status != Processing && y.status == Processing ==> ResumesBy(w, OfRecon(s), c)
    ensures SagaMove(w, OfRecon(s), c, y)
  {
  }

  lemma BlockInspects(w: World, d: ChangeId, c: ChangeId)
    requires c in w.db.changes
    ensures var v := Block(w, Some(d)).db;
            c in v.changes && Inspected(w.db.changes[c], v.changes[c])
            && (v.changes[c].status == Processing ==> w.db.changes[c].status == Processing)
  {
    hide BooksOnly, Block;
    BlockRows(w, Some(d));
  }

  lemma RowsInspect(db: Db, d: ChangeId, seen: Resources, c: ChangeId)
    requires c in db.changes
    ensures var v := RecordObservation(db, d, seen);
            c in v.changes && Inspected(db.changes[c], v.changes[c]) && v.changes[c].status == db.changes[c].status
    ensures var v := ResumeBlocked(db, d);
            c in v.changes && Inspected(db.changes[c], v.changes[c])
            && (v.changes[c].status == db.changes[c].status || (c == d && Resumable(db, d)))
  {
    hide BooksOnly, Blocked;
    if d in db.changes {
      var x := db.changes[d];
      assert RecordObservation(db, d, seen).changes == db.changes[d := x.(observed := Some(seen))];
      assert Resumable(db, d) ==> ResumeBlocked(db, d).changes == db.changes[d := x.(status := Processing)];
    }
  }

  lemma InspectRows(w: World, r: int, seen: Option<Resources>, c: ChangeId)
    requires c in w.db.changes
    ensures var v := ApplyInspect(w, r, seen).db;
            c in v.changes && Inspected(w.db.changes[c], v.changes[c])
            && (v.changes[c].status == Processing ==> w.db.changes[c].status == Processing)
  {
    hide BooksOnly, Block, RecordObservation, SameRows;
    if r in w.recons {
      BlockInspects(w, w.recons[r].change, c);
      if seen.Some? {
        RowsInspect(w.db, w.recons[r].change, seen.value, c);
      }
    }
  }

  lemma DecideRows(w: World, r: int, c: ChangeId)
    requires c in w.db.changes
    ensures var v := ApplyDecide(w, r).db;
            c in v.changes && Inspected(w.db.changes[c], v.changes[c])
            && (w.db.changes[c].status != Processing && v.changes[c].status == Processing ==>
                ResumesBy(w, OfRecon(Decide(r)), c))
  {
    hide BooksOnly, Block, ResumeBlocked, Resumable, SameRows;
    if r in w.recons {
      BlockInspects(w, w.recons[r].change, c);
      RowsInspect(w.db, w.recons[r].change, w.db.changes[c].source, c);
    }
  }

  lemma DecideMoves(w: World, s: ReconStep, c: ChangeId)
    requires s.Inspect? || s.Decide?
    requires LedgerInv(w.db) && c in w.db.changes
    ensures var v := ApplyRecon(w, s).db; c in v.changes && SagaMove(w, OfRecon(s), c, v.changes[c])
  {
    hide LedgerInv, SagaMove, ApplyInspect, ApplyDecide, SagaOk, Inspected, ResumesBy;
    SagaOf(w.db, c);
    match s {
      case Inspect(r, seen) => InspectRows(w, r, seen, c);
      case Decide(r) => DecideRows(w, r, c);
    }
    InspectedMoves(w, s, c, ApplyRecon(w, s).db.changes[c]);
  }

  lemma ReconStepMoves(w: World, s: ReconStep, c: ChangeId)
    requires LedgerInv(w.db) && c in w.db.changes
    ensures var v := ApplyRecon(w, s).db; c in v.changes && SagaMove(w, OfRecon(s), c, v.changes[c])
  {
    hide LedgerInv, EvolvesQuietly, LifeKept, Block, CloseReviewed, ReleaseInstanceLock, ApplySettleRecon, ApplyInspect;
    hide ApplyDecide;
    if s.SettleRecon? {
      SettleReconMoves(w, s, c);
    } else if s.Inspect? || s.Decide? {
      DecideMoves(w, s, c);
    } else {
      SagaOf(w.db, c);
      if s.recon in w.recons {
        BlockRows(w, Some(w.recons[s.recon].change));
      }
    }
  }

  lemma StepMoves(w: World, s: Step, c: ChangeId)
    requires LedgerInv(w.db) && c in w.db.changes
    ensures var v := Apply(w, s).db; c in v.changes && SagaMove(w, s, c, v.changes[c])
  {
    hide LedgerInv, LifeKept, ApplyLease, ApplyDesk, ApplyExec, ApplySaga, ApplyRecon, ApplyShop, ApplyLife;
    hide FailsChange, CanCompensate, ObservedAtSource, CanRequestCancel, Resumable;
    SagaOf(w.db, c);
    match s
    case OfLease(a) => LeaseLife(w, a);
    case OfDesk(d) => DeskLife(w, d);
    case OfExec(x) => ExecLife(w, x);
    case OfSaga(g) => SagaStepMoves(w, g, c);
    case OfRecon(r) => ReconStepMoves(w, r, c);
    case OfShop(h) => ShopChanges(w, h);
    case OfLife(l) => LifeMoney(w, l);
  }

  lemma ShopChanges(w: World, s: ShopStep)
    ensures ApplyShop(w, s).db.changes == w.db.changes
  {
    hide EvolvesQuietly, RenewWithWallet, RefundOrder;
    match s
    case Renew(r) => if CanRenew(w.db, r) { RenewEffect(w.db, r); } else { RenewRefused(w.db, r); }
    case RefundStep(o, chain) => RefundChanges(w.db, o, chain);
    case _ =>
  }

  lemma RefundChanges(db: Db, o: OrderId, chain: seq<OrderId>)
    ensures RefundOrder(db, o, chain).changes == db.changes
  {
    hide EvolvesQuietly, RefundLines, CanRefund;
  }
}
