/**
 The invariants that every theorem about a state relies on hold in every reachable state.
 */
module Reachable {
  import opened Billing
  import opened Evolution
  import opened World
  import opened History
  import opened Fencing
  import opened Accounting
  import opened Money
  import opened Finality
  import opened SagaRuns
  import opened Lifespan

  ghost predicate SystemInv(w: World) {
    && FenceInv(w) && Linked(w.db) && GenerationsOk(w.db) && LedgerInv(w.db)
    && ViewsOk(w) && ReconsSaw(w) && FinishesOk(w) && RetentionOk(w.db) && ExpiredPlansOk(w.db) && PlansOk(w)
  }

  lemma StepKeepsInv(w: World, s: Step)
    requires SystemInv(w)
    ensures SystemInv(Apply(w, s))
  {
    hide Apply, Evolves, FenceInv, Linked, GenerationsOk, LedgerInv, ViewsOk, ReconsSaw, FinishesOk, RetentionOk;
    hide ExpiredPlansOk, PlansOk;
    StepEvolves(w, s);
    StepKeepsFence(w, s);
    EvolutionKeepsLinks(w.db, Apply(w, s).db);
    EvolutionKeepsGenerations(w.db, Apply(w, s).db);
    StepKeepsLedger(w, s);
    StepKeepsViews(w, s);
    StepKeepsRecons(w, s);
    StepKeepsFinishes(w, s);
    StepKeepsRetention(w, s);
    StepKeepsExpiredPlans(w, s);
    StepKeepsPlans(w, s);
  }

  lemma {:induction false} RunKeepsInv(w: World, steps: seq<Step>)
    requires SystemInv(w)
    ensures SystemInv(Run(w, steps))
    decreases |steps|
  {
    hide Apply, SystemInv;
    if steps != [] {
      StepKeepsInv(w, steps[0]);
      RunKeepsInv(Apply(w, steps[0]), steps[1..]);
    }
  }

  lemma GenesisInv(now: Instant)
    ensures SystemInv(Genesis(now))
  {
  }

  /** From the empty database, whatever happens in whatever order. */
  lemma ReachableStatesAreSound(now: Instant, steps: seq<Step>)
    ensures SystemInv(Run(Genesis(now), steps))
  {
    hide SystemInv, Run;
    GenesisInv(now);
    RunKeepsInv(Genesis(now), steps);
  }
}
