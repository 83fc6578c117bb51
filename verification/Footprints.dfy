/**
 Which groups of steps leave the lifecycle columns, and which the money rows, as they were.
 */
module Footprints {
  import opened Evolution
  import opened TaskQueue
  import opened Lifecycle
  import opened Commerce
  import opened PlanChange
  import opened World

  lemma LeaseLife(w: World, s: LeaseStep)
    ensures LifeKept(w.db, ApplyLease(w, s).db) && SameMoneyRows(w.db, ApplyLease(w, s).db)
  {
    hide Evolves, Advance, RegisterNode, ClaimTask, RenewTaskLease, RenewInstanceLock, RecoverExpiredLease, FinishTask;
    hide ReleaseInstanceLock;
  }

  lemma DeskLife(w: World, s: DeskStep)
    ensures LifeKept(w.db, ApplyDesk(w, s).db) && SameMoneyRows(w.db, ApplyDesk(w, s).db)
  {
    hide Evolves, QuarantineFailed, RetryFailed, CancelQueued, CloseReconciled, DiscardForGood, DiscardReview;
    hide ResumeReview, ClearLocksOf, RevokeNode, SwitchNode, QueueAction;
  }

  lemma ExecLife(w: World, s: ExecStep)
    ensures SameMoneyRows(w.db, ApplyExec(w, s).db)
    ensures !s.CommitDestroy? && !s.CommitPurge? && !s.Report? ==> ApplyExec(w, s).db == w.db
  {
    hide EvolvesQuietly, WriteDestroyed, WritePurged, ReportRuntime, MayCallAgent, PurgeDue, PlanInForce;
    hide CanWriteDestroyed, CanWritePurged, CanReport, MayReport;
  }

  lemma SagaLife(w: World, s: SagaStep)
    ensures LifeKept(w.db, ApplySaga(w, s).db)
  {
    hide EvolvesQuietly, OpenChange, RequestCancel, CompletePlanChange, CompleteCompensation, FailChange;
    hide MarkBlocked, ActivateOrders;
  }

  lemma ReconLife(w: World, s: ReconStep)
    ensures LifeKept(w.db, ApplyRecon(w, s).db)
  {
    hide EvolvesQuietly, CompletePlanChange, FailChange, MarkBlocked, ResumeBlocked, RecordObservation, CloseReviewed;
    hide ReleaseInstanceLock;
  }

  lemma LifeMoney(w: World, s: LifeStep)
    ensures SameMoneyRows(w.db, ApplyLife(w, s).db)
  {
    hide Evolves, RuntimeMove, FinalizeReconciled, ExpireInstance, PlanDestroy, CommitCancel, WaiveRefund;
    hide ScheduleLifecycleTask;
  }
}
