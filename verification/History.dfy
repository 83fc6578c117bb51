/**
 Every step, and so every run, only ever evolves the database.
 */
module History {
  import opened Schema
  import opened Evolution
  import opened TaskQueue
  import opened Lifecycle
  import opened Commerce
  import opened PlanChange
  import opened World

  lemma LeaseEvolves(w: World, s: LeaseStep)
    ensures Evolves(w.db, ApplyLease(w, s).db) && SidelinedKept(w.db, ApplyLease(w, s).db)
  {
    EvolvesReflexive(w.db);
    hide Evolves;
  }

  lemma DeskEvolves(w: World, s: DeskStep)
    ensures Evolves(w.db, ApplyDesk(w, s).db) && ApplyDesk(w, s).db.tokens == w.db.tokens
    ensures !s.Resume? ==> EvolvesQuietly(w.db, ApplyDesk(w, s).db)
  {
    EvolvesReflexive(w.db);
    hide Evolves, ClearLocksOf, RevokeNode, SwitchNode, QueueAction, RetryFailed, QuarantineFailed, ResumeReview;
    hide CancelQueued, CloseReconciled;
  }

  lemma ExecEvolves(w: World, s: ExecStep)
    ensures EvolvesQuietly(w.db, ApplyExec(w, s).db)
  {
    EvolvesReflexive(w.db);
    hide Evolves, WriteDestroyed, WritePurged;
  }

  lemma SagaEvolves(w: World, s: SagaStep)
    ensures EvolvesQuietly(w.db, ApplySaga(w, s).db)
  {
    EvolvesReflexive(w.db);
    hide Evolves, OpenChange, RequestCancel, CompletePlanChange, CompleteCompensation, FailChange, MarkBlocked;
  }

  lemma ReconEvolves(w: World, s: ReconStep)
    ensures EvolvesQuietly(w.db, ApplyRecon(w, s).db)
  {
    EvolvesReflexive(w.db);
    hide Evolves, CompletePlanChange, FailChange, MarkBlocked, ResumeBlocked, RecordObservation, CloseReviewed;
    hide ReleaseInstanceLock;
  }

  lemma ShopEvolves(w: World, s: ShopStep)
    ensures EvolvesQuietly(w.db, ApplyShop(w, s).db)
  {
    EvolvesReflexive(w.db);
    hide Evolves, OpenWallet, AdjustWallet, PurchaseWithWallet, RenewWithWallet, RefundOrder, ActivateOrders;
    hide ExpireOrders, FailOrders;
  }

  lemma LifeEvolves(w: World, s: LifeStep)
    ensures EvolvesQuietly(w.db, ApplyLife(w, s).db)
  {
    EvolvesReflexive(w.db);
    hide Evolves, RuntimeMove, FinalizeReconciled, ExpireInstance, PlanDestroy, CommitCancel, WaiveRefund;
    hide ScheduleLifecycleTask;
  }

  lemma StepEvolves(w: World, s: Step)
    ensures Evolves(w.db, Apply(w, s).db)
  {
    hide Evolves, ApplyLease, ApplyDesk, ApplyExec, ApplySaga, ApplyRecon, ApplyShop, ApplyLife;
    match s
    case OfLease(a) => LeaseEvolves(w, a);
    case OfDesk(d) => DeskEvolves(w, d);
    case OfExec(x) => ExecEvolves(w, x);
    case OfSaga(g) => SagaEvolves(w, g);
    case OfRecon(r) => ReconEvolves(w, r);
    case OfShop(h) => ShopEvolves(w, h);
    case OfLife(l) => LifeEvolves(w, l);
  }

  /** Only an administrator's resume can bring sidelined work back. */
  lemma StepKeepsSidelined(w: World, s: Step)
    requires !(s.OfDesk? && s.d.Resume?)
    ensures SidelinedKept(w.db, Apply(w, s).db)
  {
    hide Evolves, SidelinedKept, ApplyLease, ApplyDesk, ApplyExec, ApplySaga, ApplyRecon, ApplyShop, ApplyLife;
    match s
    case OfLease(a) => LeaseEvolves(w, a);
    case OfDesk(d) => DeskEvolves(w, d);
    case OfExec(x) => ExecEvolves(w, x);
    case OfSaga(g) => SagaEvolves(w, g);
    case OfRecon(r) => ReconEvolves(w, r);
    case OfShop(h) => ShopEvolves(w, h);
    case OfLife(l) => LifeEvolves(w, l);
  }

  lemma {:induction false} RunEvolves(w: World, steps: seq<Step>)
    ensures Evolves(w.db, Run(w, steps).db)
    decreases |steps|
  {
    EvolvesReflexive(w.db);
    hide Evolves, Apply;
    if steps != [] {
      StepEvolves(w, steps[0]);
      RunEvolves(Apply(w, steps[0]), steps[1..]);
      EvolvesTransitive(w.db, Apply(w, steps[0]).db, Run(w, steps).db);
    }
  }

  // ---------- tasks and their changes ----------

  ghost predicate Linked(db: Db) {
    forall t :: t in db.tasks ==> TaskLinked(db, t)
  }

  lemma EvolutionKeepsLinks(a: Db, b: Db)
    requires Evolves(a, b) && Linked(a)
    ensures Linked(b)
  {
    forall t | t in b.tasks ensures TaskLinked(b, t) {
      if t in a.tasks {
        LinkedStays(a, b, t);
      }
    }
  }

  /** Generations start at one, and every resize carries one. */
  ghost predicate GenerationsOk(db: Db) {
    && (forall i :: i in db.instances ==> db.instances[i].generation >= 1)
    && (forall t :: t in db.tasks && db.tasks[t].action.Resize? ==> db.tasks[t].generation >= 1)
  }

  lemma EvolutionKeepsGenerations(a: Db, b: Db)
    requires Evolves(a, b) && GenerationsOk(a)
    ensures GenerationsOk(b)
  {
    forall t | t in b.tasks && b.tasks[t].action.Resize? ensures b.tasks[t].generation >= 1 {
      if t in a.tasks {
        assert SameTaskFacts(a.tasks[t], b.tasks[t]);
      } else {
        assert Stamped(a, b.tasks[t]);
      }
    }
  }

  lemma StepKeepsLinks(w: World, s: Step)
    requires Linked(w.db)
    ensures Linked(Apply(w, s).db)
  {
    hide Apply, Linked, Evolves;
    StepEvolves(w, s);
    EvolutionKeepsLinks(w.db, Apply(w, s).db);
  }
}
