/** Approvals that stay awaiting beside a request nothing can resolve any more: exactly when they arise, and that
    they never close (broker/request_lifecycle.py, _submit and _open_approval; broker/store.py,
    reconcile_offline). */
module Orphans {
  import opened Wrappers
  import opened PolicyRules
  import opened BrokerDb
  import opened BrokerInvariant
  import opened Protocol
  import opened ProtocolInvariant
  import opened ProtocolSafety

  /** An approval still awaiting beside a request that reconciliation already ended. */
  ghost predicate Orphan(db: Db, a: nat) {
    && a < |db.approvals| && db.approvals[a].status == Awaiting
    && db.approvals[a].request < |db.requests| && db.requests[db.approvals[a].request].status == Unknown
  }

  /** Such an approval stays awaiting for ever: no sweep, poll or cancellation ever closes it. */
  lemma {:induction false} OrphanForever(states: seq<System>, steps: seq<Step>, j: nat, k: nat, a: nat)
    requires Run(states, steps) && Inv(states[0]) && j <= k < |states| && Orphan(states[j].db, a)
    ensures Orphan(states[k].db, a)
    decreases k
  {
    hide Next;
    if j < k {
      OrphanForever(states, steps, j, k - 1, a);
      RunInv(states, steps, k - 1);
      assert Next(states[k - 1], steps[k - 1]) == Some(states[k - 1 + 1]);
      OrphanStays(states[k - 1], steps[k - 1], states[k], a);
    }
  }

  lemma OrphanStays(s: System, step: Step, s': System, a: nat)
    requires Inv(s) && Next(s, step) == Some(s') && Orphan(s.db, a)
    ensures Orphan(s'.db, a)
  {
    hide Next, Inv;
    StepKeeps(s, step);
    assert ApprovalEvolves(s.db.approvals[a], s'.db.approvals[a]);
    assert RowEvolves(s.db.requests[s.db.approvals[a].request], s'.db.requests[s.db.approvals[a].request]);
  }

  // ---- what single steps do -----------------------------------------------------------------------

  /** The step kills a submission between the two transactions that park its request. */
  predicate Strands(s: System, step: Step, rid: nat) {
    step.Crash? && step.w in s.workers && s.workers[step.w] == Parking(rid)
  }

  predicate Reconciles(step: Step) {
    step.Operate? && step.admin.ReconcileAll?
  }

  /** Some worker has recorded the approval and not yet parked the request. */
  ghost predicate Parked(s: System, rid: nat) {
    exists w | w in s.workers :: s.workers[w] == Parking(rid)
  }

  /** An approval awaiting beside a received request that no worker owns. */
  ghost predicate Abandoned(s: System, a: nat) {
    && a < |s.db.approvals| && s.db.approvals[a].status == Awaiting
    && s.db.approvals[a].request < |s.db.requests|
    && s.db.requests[s.db.approvals[a].request].status == Received
    && forall v | v in s.workers :: Owned(s.workers[v]) != Some(s.db.approvals[a].request)
  }

  lemma OthersUnmoved(s: System, step: Step, s': System, v: nat)
    requires Next(s, step) == Some(s') && v in s.workers && (step.Operate? || step.w != v)
    ensures v in s'.workers && s'.workers[v] == s.workers[v]
  {
    hide Reserve, Decide, UpdateRequest, CreateApproval, ClaimReceived, ClaimApproval, FinishPending, Administer,
      Weighed;
  }

  /** A worker about to park its request does that or crashes. */
  lemma ParkerMoves(s: System, step: Step, s': System, rid: nat)
    requires Next(s, step) == Some(s') && !step.Operate? && step.w in s.workers
    requires s.workers[step.w] == Parking(rid)
    ensures step.Crash? || step.Park?
    ensures step.Park? && rid < |s'.db.requests| ==> s'.db.requests[rid].status == PendingApproval
  {
    hide Reserve, Decide, CreateApproval, ClaimReceived, ClaimApproval, FinishPending, Weighed;
  }

  lemma ReserveApprovals(s: System, step: Step)
    requires step.Submit? && SubmitNext(s, step).Some?
    ensures SubmitNext(s, step).value.db.approvals == s.db.approvals
  {
    hide Live, Decide, ValidKey;
  }

  lemma UpdateApprovals(s: System, step: Step, s': System)
    requires (step.Refuse? || step.Park? || step.Finish? || step.ClaimDirect?) && Next(s, step) == Some(s')
    ensures s'.db.approvals == s.db.approvals
  {
    hide Authorized;
  }

  /** Only recording an approval adds one, and its worker then parks. */
  lemma ApprovalsArise(s: System, step: Step, s': System)
    requires Next(s, step) == Some(s') && |s'.db.approvals| > |s.db.approvals|
    ensures step.Record? && |s'.db.approvals| == |s.db.approvals| + 1
    ensures Parked(s', s'.db.approvals[|s.db.approvals|].request)
  {
    hide Reserve, Decide, Weighed, UpdateRequest, ClaimReceived;
    if step.Submit? {
      ReserveApprovals(s, step);
    }
    if step.Refuse? || step.Park? || step.Finish? || step.ClaimDirect? {
      UpdateApprovals(s, step, s');
    }
    if step.Record? {
      assert s'.workers[step.w] == Parking(s.workers[step.w].rid);
    }
  }

  lemma ReservedNew(s: System, step: Step)
    requires step.Submit? && SubmitNext(s, step).Some? && step.w in SubmitNext(s, step).value.workers
    ensures var wk := SubmitNext(s, step).value.workers[step.w];
            step.w !in s.workers && Owned(wk) == Some(|s.db.requests|)
  {
    hide Live, Decide, ValidKey;
  }

  lemma GrantedPending(s: System, w: nat, now: Time)
    requires ClaimReviewedNext(s, w, now).Some? && w in ClaimReviewedNext(s, w, now).value.workers
    ensures var wk := ClaimReviewedNext(s, w, now).value.workers[w];
            Owned(wk).Some? && Owned(wk).value < |s.db.requests|
            && s.db.requests[Owned(wk).value].status == PendingApproval
  {
    hide Authorized;
  }

  /** A worker comes to own only a row it creates or one that was pending. */
  lemma OwnersArise(s: System, step: Step, s': System, v: nat)
    requires Next(s, step) == Some(s') && v in s'.workers && Owned(s'.workers[v]).Some?
    ensures var rid := Owned(s'.workers[v]).value;
            || (v in s.workers && Owned(s.workers[v]) == Some(rid))
            || rid >= |s.db.requests| || s.db.requests[rid].status == PendingApproval
  {
    hide Owned;
    if step.Operate? || step.w != v {
      if v in s.workers {
        OthersUnmoved(s, step, s', v);
      } else {
        NoOtherBegins(s, step, s', v);
      }
    } else if step.Weigh? {
      WeighedUnowned(s, step.w);
    } else if step.Submit? {
      ReservedNew(s, step);
    } else if step.ClaimReviewed? {
      GrantedPending(s, step.w, step.now);
    } else {
      SameOwner(s, step, s');
    }
  }

  lemma NoOtherBegins(s: System, step: Step, s': System, v: nat)
    requires Next(s, step) == Some(s') && v !in s.workers && (step.Operate? || step.w != v)
    ensures v !in s'.workers
  {
    hide Reserve, Decide, UpdateRequest, CreateApproval, ClaimReceived, ClaimApproval, FinishPending, Administer,
      Weighed;
  }

  lemma SameOwner(s: System, step: Step, s': System)
    requires Next(s, step) == Some(s') && !step.Operate? && !step.Weigh? && !step.Submit? && !step.ClaimReviewed?
    requires step.w in s'.workers && Owned(s'.workers[step.w]).Some?
    ensures step.w in s.workers && Owned(s.workers[step.w]) == Owned(s'.workers[step.w])
  {
    hide Decide, UpdateRequest, CreateApproval, FinishPending, ClaimReceived;
  }

  lemma WeighedUnowned(s: System, w: nat)
    requires WeighNext(s, w).Some?
    ensures var s' := WeighNext(s, w).value; w in s'.workers ==> Owned(s'.workers[w]) == None
  {
  }

  lemma KnownWorker(s: System, w: nat)
    requires Inv(s) && w in s.workers
    ensures WorkerOk(s.db, s.history, s.workers[w])
  {
  }

  lemma OperatorUnknown(s: System, step: Step, s': System, rid: nat)
    requires step.Operate? && Next(s, step) == Some(s') && rid < |s.db.requests| && rid < |s'.db.requests|
    requires s.db.requests[rid].status != Unknown == s'.db.requests[rid].status
    ensures Reconciles(step)
  {
  }

  lemma CloserUnknown(s: System, w: nat, now: Time, rid: nat)
    requires Inv(s) && CloseNext(s, w, now).Some? && rid < |s.db.requests|
    ensures var db' := CloseNext(s, w, now).value.db;
            rid < |db'.requests| && (db'.requests[rid].status == Unknown ==> s.db.requests[rid].status == Unknown)
  {
    assert WorkerOk(s.db, s.history, s.workers[w]);
  }

  lemma UpdaterUnknown(s: System, step: Step, s': System, rid: nat)
    requires Inv(s) && (step.Refuse? || step.Park? || step.Finish?) && Next(s, step) == Some(s')
    requires rid < |s.db.requests| && rid < |s'.db.requests|
    requires s.db.requests[rid].status != Unknown == s'.db.requests[rid].status
    ensures s.db.requests[rid].status == Executing
  {
    hide Inv, HasApproval, JobOk, WatchOk, RefOk, AsReserved;
    KnownWorker(s, step.w);
  }

  lemma ClaimedUnknown(db: Db, claim: nat, generation: Option<string>, who: Option<Principal>, expected: Digest,
                       state: SurfaceState, now: Time, rid: nat)
    requires rid < |db.requests|
    ensures var rows := ClaimReceived(db, claim, generation, who, expected, now).0.requests;
            rid < |rows| && (rows[rid].status == Unknown ==> db.requests[rid].status == Unknown)
    ensures var rows := ClaimApproval(db, claim, generation, state, now, who).0.requests;
            rid < |rows| && (rows[rid].status == Unknown ==> db.requests[rid].status == Unknown)
  {
    hide Authorized;
  }

  lemma ClaimerUnknown(s: System, step: Step, s': System, rid: nat)
    requires (step.ClaimDirect? || step.ClaimReviewed?) && Next(s, step) == Some(s')
    requires rid < |s.db.requests|
    ensures rid < |s'.db.requests|
    ensures s'.db.requests[rid].status == Unknown ==> s.db.requests[rid].status == Unknown
  {
    hide ClaimReceived, ClaimApproval;
    var wk, none := s.workers[step.w], SurfaceState(Undecided, None, None, None);
    if step.ClaimDirect? {
      ClaimedUnknown(s.db, wk.job.rid, Generation(wk.current), Some(wk.job.who), wk.job.digest, none, step.now, rid);
    } else {
      ClaimedUnknown(s.db, wk.watch.rid, Generation(wk.current), wk.watch.who, wk.watch.row.bound.digest, wk.state,
                     Later(wk.watch.now, step.now), rid);
    }
  }

  /** A request becomes unknown from executing, or by reconciliation. */
  lemma UnknownArises(s: System, step: Step, s': System, rid: nat)
    requires Inv(s) && Next(s, step) == Some(s') && rid < |s.db.requests| && rid < |s'.db.requests|
    requires s.db.requests[rid].status != Unknown == s'.db.requests[rid].status
    ensures Reconciles(step) || s.db.requests[rid].status == Executing
  {
    hide Inv, OperateNext, RefuseNext, ParkNext, FinishNext, CloseNext, ClaimDirectNext, ClaimReviewedNext, Decide,
      Live, Weighed, Reconciles;
    if step.Operate? {
      OperatorUnknown(s, step, s', rid);
    } else if step.Close? {
      CloserUnknown(s, step.w, step.now, rid);
    } else if step.Refuse? || step.Park? || step.Finish? {
      UpdaterUnknown(s, step, s', rid);
    } else if step.ClaimDirect? || step.ClaimReviewed? {
      ClaimerUnknown(s, step, s', rid);
    }
  }

  // ---- abandoned until reconciled -----------------------------------------------------------------

  /** A stranded approval is abandoned. */
  lemma StrandedAbandoned(s: System, step: Step, s': System, rid: nat)
    requires Inv(s) && Next(s, step) == Some(s') && Strands(s, step, rid)
    ensures Abandoned(s', ApprovalIndex(s'.db.approvals, rid))
  {
    assert WorkerOk(s.db, s.history, s.workers[step.w]);
    Sole(s, step.w, rid);
    hide Inv;
  }

  lemma AbandonedReconciled(s: System, step: Step, s': System, a: nat)
    requires Next(s, step) == Some(s') && Abandoned(s, a) && Reconciles(step)
    ensures Orphan(s'.db, a)
  {
  }

  lemma AbandonedStep(s: System, step: Step, s': System, a: nat)
    requires Inv(s) && Next(s, step) == Some(s') && Abandoned(s, a)
    ensures if Reconciles(step) then Orphan(s'.db, a) else Abandoned(s', a)
  {
    hide Next, Inv;
    var rid := s.db.approvals[a].request;
    if Reconciles(step) {
      AbandonedReconciled(s, step, s', a);
    } else {
      StepKeeps(s, step);
      assert SameFor(s.db, s'.db, rid);
      assert s'.db.approvals[a] == s.db.approvals[a] by {
        assert ApprovalEvolves(s.db.approvals[a], s'.db.approvals[a]);
      }
      forall v | v in s'.workers && Owned(s'.workers[v]).Some? ensures Owned(s'.workers[v]) != Some(rid) {
        OwnersArise(s, step, s', v);
      }
    }
  }

  ghost predicate ReconciledIn(steps: seq<Step>, m: nat, k: nat) {
    exists j :: m <= j < k && j < |steps| && Reconciles(steps[j])
  }

  lemma {:induction false} AbandonedUntil(states: seq<System>, steps: seq<Step>, m: nat, k: nat, a: nat)
    requires Run(states, steps) && Inv(states[0]) && m <= k < |states| && Abandoned(states[m], a)
    ensures if ReconciledIn(steps, m, k) then Orphan(states[k].db, a) else Abandoned(states[k], a)
    decreases k
  {
    hide Next, Abandoned, Orphan, Inv;
    if m < k {
      AbandonedUntil(states, steps, m, k - 1, a);
      RunInv(states, steps, k - 1);
      assert Next(states[k - 1], steps[k - 1]) == Some(states[k - 1 + 1]);
      if ReconciledIn(steps, m, k - 1) {
        OrphanStays(states[k - 1], steps[k - 1], states[k], a);
      } else {
        AbandonedStep(states[k - 1], steps[k - 1], states[k], a);
      }
    }
  }

  // ---- where a received request with an approval comes from ----------------------------------------

  /** Some step before the k-th stranded the request. */
  ghost predicate Stranded(states: seq<System>, steps: seq<Step>, k: nat, rid: nat) {
    exists i :: 0 <= i < k && i < |steps| && i < |states| && Strands(states[i], steps[i], rid)
  }

  /** One step: an approval beside a received request has its parker, or lost it just now, or had lost it. */
  lemma ParkedStep(s: System, step: Step, s': System, a: nat)
    requires Inv(s) && Next(s, step) == Some(s')
    requires a < |s'.db.approvals| && s'.db.approvals[a].request < |s'.db.requests|
    requires s'.db.requests[s'.db.approvals[a].request].status == Received
    ensures var rid := s'.db.approvals[a].request;
            || Parked(s', rid) || Strands(s, step, rid)
            || (a < |s.db.approvals| && s.db.approvals[a].request == rid < |s.db.requests|
                && s.db.requests[rid].status == Received && !Parked(s, rid))
  {
    hide Next, Inv;
    StepKeeps(s, step);
    var rid := s'.db.approvals[a].request;
    if a >= |s.db.approvals| {
      ApprovalsArise(s, step, s');
    } else {
      assert ApprovalEvolves(s.db.approvals[a], s'.db.approvals[a]);
      ApprovalFits(s, a);
      assert RowEvolves(s.db.requests[rid], s'.db.requests[rid]);
      hide StepFramed, Evolves;
      if Parked(s, rid) {
        var w :| w in s.workers && s.workers[w] == Parking(rid);
        if step.Operate? || step.w != w {
          OthersUnmoved(s, step, s', w);
        } else {
          ParkerMoves(s, step, s', rid);
        }
      }
    }
  }

  lemma ApprovalFits(s: System, a: nat)
    requires Inv(s) && a < |s.db.approvals|
    ensures s.db.approvals[a].request < |s.db.requests|
    ensures Coupled(s.db.approvals[a].status, s.db.requests[s.db.approvals[a].request].status)
  {
    assert ApprovalOk(s.db, s.db.approvals[a]);
  }

  lemma {:induction false} ParkedOrStranded(states: seq<System>, steps: seq<Step>, k: nat, a: nat)
    requires Run(states, steps) && states[0] == START && k < |states|
    requires a < |states[k].db.approvals| && states[k].db.approvals[a].request < |states[k].db.requests|
    requires states[k].db.requests[states[k].db.approvals[a].request].status == Received
    ensures var rid := states[k].db.approvals[a].request;
            Parked(states[k], rid) || Stranded(states, steps, k, rid)
  {
    hide Next, Inv;
    StartOk();
    if k > 0 {
      RunInv(states, steps, k - 1);
      assert Next(states[k - 1], steps[k - 1]) == Some(states[k - 1 + 1]);
      ParkedStep(states[k - 1], steps[k - 1], states[k], a);
      var rid := states[k].db.approvals[a].request;
      if !Parked(states[k], rid) && !Strands(states[k - 1], steps[k - 1], rid) {
        ParkedOrStranded(states, steps, k - 1, a);
      }
    }
  }

  // ---- the exact conditions -----------------------------------------------------------------------

  /** A submission was killed while about to park the request, and the broker was reconciled afterwards. */
  ghost predicate StrandedThenReconciled(states: seq<System>, steps: seq<Step>, k: nat, rid: nat) {
    exists i, j :: 0 <= i < j < k && j < |steps| && i < |states| && Strands(states[i], steps[i], rid)
                   && Reconciles(steps[j])
  }

  /** Once stranded, the approval is abandoned until a reconciliation, and an orphan from then on. */
  lemma AfterStranding(states: seq<System>, steps: seq<Step>, i: nat, k: nat, a: nat)
    requires Run(states, steps) && states[0] == START && i < k < |states| && a < |states[k].db.approvals|
    requires Strands(states[i], steps[i], states[k].db.approvals[a].request)
    ensures if ReconciledIn(steps, i + 1, k) then Orphan(states[k].db, a) else Abandoned(states[k], a)
  {
    hide Next, Inv, Strands, Parked;
    StartOk();
    RunInv(states, steps, i);
    assert Next(states[i], steps[i]) == Some(states[i + 1]);
    var rid := states[k].db.approvals[a].request;
    StrandedAbandoned(states[i], steps[i], states[i + 1], rid);
    var b := ApprovalIndex(states[i + 1].db.approvals, rid);
    AbandonedUntil(states, steps, i + 1, k, b);
    RunEvolves(states, steps, i + 1, k);
    RunInv(states, steps, k);
    SameApproval(states[i + 1], states[k], a, b);
  }

  lemma SameApproval(s: System, s': System, a: nat, b: nat)
    requires Inv(s') && Evolves(s.db, s'.db) && a < |s'.db.approvals| && b < |s.db.approvals|
    requires s'.db.approvals[a].request == s.db.approvals[b].request
    ensures a == b
  {
    assert ApprovalEvolves(s.db.approvals[b], s'.db.approvals[b]);
  }

  /** From an empty store, an approval is orphaned exactly when the submission that recorded it was killed before
      it parked the request, and the broker was reconciled after that. */
  lemma {:induction false} OrphanExactly(states: seq<System>, steps: seq<Step>, k: nat, a: nat)
    requires Run(states, steps) && states[0] == START && k < |states| && a < |states[k].db.approvals|
    ensures Orphan(states[k].db, a)
       <==> StrandedThenReconciled(states, steps, k, states[k].db.approvals[a].request)
  {
    hide Next, Inv, Abandoned, Strands;
    var rid := states[k].db.approvals[a].request;
    if StrandedThenReconciled(states, steps, k, rid) {
      var i, j :| 0 <= i < j < k && j < |steps| && Strands(states[i], steps[i], rid) && Reconciles(steps[j]);
      AfterStranding(states, steps, i, k, a);
    }
    if Orphan(states[k].db, a) {
      OrphanArose(states, steps, k, a);
    }
  }

  lemma {:induction false} OrphanArose(states: seq<System>, steps: seq<Step>, k: nat, a: nat)
    requires Run(states, steps) && states[0] == START && k < |states| && Orphan(states[k].db, a)
    ensures StrandedThenReconciled(states, steps, k, states[k].db.approvals[a].request)
  {
    hide Next, Inv, Strands;
    StartOk();
    if k > 0 {
      var s, s' := states[k - 1], states[k];
      RunInv(states, steps, k - 1);
      assert Next(s, steps[k - 1]) == Some(states[k - 1 + 1]);
      if Orphan(s.db, a) {
        OrphanArose(states, steps, k - 1, a);
        OrphanSame(s, steps[k - 1], s', a);
      } else {
        OrphanStep(s, steps[k - 1], s', a);
        ParkedOrStranded(states, steps, k - 1, a);
      }
    }
  }

  lemma OrphanSame(s: System, step: Step, s': System, a: nat)
    requires Inv(s) && Next(s, step) == Some(s') && a < |s.db.approvals|
    ensures a < |s'.db.approvals| && s'.db.approvals[a].request == s.db.approvals[a].request
  {
    hide Next, Inv;
    StepKeeps(s, step);
    assert ApprovalEvolves(s.db.approvals[a], s'.db.approvals[a]);
  }

  /** An orphan arises only by reconciling a received request that nobody is about to park. */
  lemma OrphanStep(s: System, step: Step, s': System, a: nat)
    requires Inv(s) && Next(s, step) == Some(s') && Orphan(s'.db, a) && !Orphan(s.db, a)
    ensures Reconciles(step) && a < |s.db.approvals|
    ensures var rid := s'.db.approvals[a].request;
            && s.db.approvals[a].request == rid < |s.db.requests| && s.db.requests[rid].status == Received
            && !Parked(s, rid)
  {
    hide Next, Inv;
    StepKeeps(s, step);
    var rid := s'.db.approvals[a].request;
    if a >= |s.db.approvals| {
      ApprovalsArise(s, step, s');
      ParkedReceived(s', rid);
    }
    assert ApprovalEvolves(s.db.approvals[a], s'.db.approvals[a]);
    ApprovalFits(s, a);
    hide StepFramed, Evolves;
    UnknownArises(s, step, s', rid);
    ReconcileIdle(s, step, s');
    PendingNotReconciled(s, step, s', rid);
  }

  lemma ParkedReceived(s: System, rid: nat)
    requires Inv(s) && Parked(s, rid)
    ensures rid < |s.db.requests| && s.db.requests[rid].status == Received
  {
    var w :| w in s.workers && s.workers[w] == Parking(rid);
    assert WorkerOk(s.db, s.history, s.workers[w]);
  }

  lemma PendingNotReconciled(s: System, step: Step, s': System, rid: nat)
    requires Next(s, step) == Some(s') && Reconciles(step)
    requires rid < |s.db.requests|
    ensures rid < |s'.db.requests|
    ensures s.db.requests[rid].status == PendingApproval ==> s'.db.requests[rid] == s.db.requests[rid]
  {
  }

  /** From an empty store, an awaiting approval has its request parked exactly when no submission is still about
      to park it and none was killed before it did. */
  lemma AwaitingParked(states: seq<System>, steps: seq<Step>, k: nat, a: nat)
    requires Run(states, steps) && states[0] == START && k < |states|
    requires a < |states[k].db.approvals| && states[k].db.approvals[a].status == Awaiting
    ensures var rid := states[k].db.approvals[a].request;
            rid < |states[k].db.requests|
            && (states[k].db.requests[rid].status == PendingApproval
                <==> !Parked(states[k], rid) && !Stranded(states, steps, k, rid))
  {
    hide Next, Inv, Strands, Parked;
    StartOk();
    RunInv(states, steps, k);
    var rid := states[k].db.approvals[a].request;
    AwaitingStatus(states[k], a);
    if Stranded(states, steps, k, rid) {
      var i :| 0 <= i < k && i < |steps| && Strands(states[i], steps[i], rid);
      AfterStranding(states, steps, i, k, a);
    } else if states[k].db.requests[rid].status == Received {
      ParkedOrStranded(states, steps, k, a);
    } else if states[k].db.requests[rid].status == Unknown {
      OrphanArose(states, steps, k, a);
    }
  }

  lemma AwaitingStatus(s: System, a: nat)
    requires Inv(s) && a < |s.db.approvals| && s.db.approvals[a].status == Awaiting
    ensures var rid := s.db.approvals[a].request;
            && rid < |s.db.requests| && s.db.requests[rid].status in {Received, PendingApproval, Unknown}
            && (Parked(s, rid) ==> s.db.requests[rid].status == Received)
  {
    ApprovalFits(s, a);
    if Parked(s, s.db.approvals[a].request) {
      ParkedReceived(s, s.db.approvals[a].request);
    }
  }

  // ---- such a run exists --------------------------------------------------------------------------

  const REVIEWED := Policy(Some(map["t" := map["o" := "review"]]), None, None)

  const HOLDER := Principal(0, Some("h"))

  /** One caller with one token, whose policy sends t.o to review. */
  predicate Ready(s: System) {
    && s.db == Db([CallerRow("c", None)], map["h" := TokenRow(0, None)], map[0 := REVIEWED], [], [])
    && s.workers == map[]
  }

  lemma ReadyReachable() returns (states: seq<System>, steps: seq<Step>)
    ensures Run(states, steps) && |steps| == 3 && states[0] == START && Ready(states[3])
  {
    steps := [Operate(NewCaller("c"), 0.0), Operate(NewToken(0, "h"), 0.0), Operate(NewPolicy(0, REVIEWED), 0.0)];
    var s1 := Next(START, steps[0]).value;
    var s2 := Next(s1, steps[1]).value;
    var s3 := Next(s2, steps[2]).value;
    assert s3.db.tokens == map["h" := TokenRow(0, None)];
    states := [START, s1, s2, s3];
  }

  /** A submission dies between the two transactions that park its request. */
  lemma HalfParked(s: System) returns (states: seq<System>, steps: seq<Step>)
    requires Ready(s)
    ensures Run(states, steps) && |steps| == 5 && states[0] == s
    ensures var db := states[5].db;
            && states[5].workers == map[]
            && |db.requests| == |db.approvals| == 1
            && db.requests[0].status == Received
            && db.approvals[0].request == 0 && db.approvals[0].status == Awaiting
  {
    steps := [
      Submit(0, HOLDER, "t", "o", "{}", None, Some(ToolOp("t", "o", "g", false)), None, "n", 0.0),
      Judge(0, true), Open(0, Some("ref")), Record(0, 60.0), Crash(0)];
    assert s.db.tokens["h"] == TokenRow(0, None);
    assert Live(s.db, 0, Some(HOLDER));
    var s1 := Next(s, steps[0]).value;
    assert PolicyFor(s1.db, 0) == REVIEWED && Decide(REVIEWED, "t", "o") == Review;
    var s2 := Next(s1, steps[1]).value;
    var s3 := Next(s2, steps[2]).value;
    var s4 := Next(s3, steps[3]).value;
    var s5 := Next(s4, steps[4]).value;
    assert s5.workers == map[];
    states := [s, s1, s2, s3, s4, s5];
  }

  /** Awaiting approvals are not always parked: a crash between the two transactions that park a request,
      followed by offline reconciliation, leaves one that OrphanForever shows is never closed. */
  lemma OrphanReachable() returns (states: seq<System>, steps: seq<Step>)
    ensures Run(states, steps) && states[0] == START
    ensures Orphan(states[|states| - 1].db, 0)
  {
    hide Ready;
    var readied, first := ReadyReachable();
    var parked, second := HalfParked(readied[3]);
    var last := Operate(ReconcileAll, 1.0);
    var end := Next(parked[5], last).value;
    hide Next;
    states := readied[..3] + parked + [end];
    steps := first + second + [last];
    forall i | 0 <= i < |steps| ensures Next(states[i], steps[i]) == Some(states[i + 1]) {
      if i < 3 {
        assert Next(readied[i], first[i]) == Some(readied[i + 1]);
      } else if i < 8 {
        assert Next(parked[i - 3], second[i - 3]) == Some(parked[i - 3 + 1]);
      }
    }
  }
}
