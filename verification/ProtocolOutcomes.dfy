/** How requests end, over whole runs: what a policy write puts an end to, and which reply a dispatched request's
    status and columns record. */
module ProtocolOutcomes {
  import opened Wrappers
  import opened PolicyRules
  import opened BrokerDb
  import opened BrokerInvariant
  import opened BrokerColumns
  import opened Protocol
  import opened ProtocolInvariant
  import opened ProtocolSafety

  // ---- the operator -------------------------------------------------------------------------------

  /** What an operator's transaction makes of the tables; None is a refusal, which changes nothing. */
  function Committed(s: System, admin: Admin, now: Time): Option<Db> {
    match Next(s, Operate(admin, now))
    case None => None
    case Some(s') => Some(s'.db)
  }

  /** Every transaction of an operator can come at any time, with requests in flight, except offline reconciliation;
      no worker and nothing already sent is touched by one. */
  lemma OperatesAnytime(s: System, admin: Admin, now: Time)
    ensures Next(s, Operate(admin, now)).Some? ==>
              var s' := Next(s, Operate(admin, now)).value; s'.workers == s.workers && s'.history == s.history
    ensures Next(s, Operate(admin, now)).None? <==>
              || (admin.NewCaller? && exists c | 0 <= c < |s.db.callers| :: s.db.callers[c].name == admin.name)
              || (admin.NewToken? && (admin.hash in s.db.tokens || admin.caller >= |s.db.callers|))
              || (admin.NewPolicy? && admin.caller >= |s.db.callers|)
              || (admin.ReconcileAll? && s.workers != map[])
  {
    hide FinishPending, Prune, Reconcile, WritePolicy, CompareAndSetPolicy;
  }

  /** Each is the transaction of that name, told by its columns. */
  lemma OperatesAs(s: System, admin: Admin, now: Time)
    requires Committed(s, admin, now).Some?
    ensures var db, db' := s.db, Committed(s, admin, now).value;
            match admin
            case NewCaller(name) => AddCaller(db, name) == Some((db', |db.callers|))
            case NewToken(caller, hash) => AddToken(db, caller, hash) == Some(db')
            case DropCaller(name) => db' == RevokeCaller(db, name, now)
            case DropTokens(hashes) => db' == RevokeTokens(db, hashes, now)
            case NewPolicy(caller, policy) => PolicyWritten(db, db', caller, policy, now)
            case SwapPolicy(caller, before, after) =>
              if Unrevoked(db, caller) && StoredPolicy(db, caller, before)
              then PolicyWritten(db, db', caller, after, now) else db' == db
            case Withdraw(rid) => db' == FinishPending(db, rid, Ending(Expired, Cancelled, None), None, now, false).0
            case SweepRow(rid) => db' == FinishPending(db, rid, Ending(Expired, Lapsed, None), None, now, true).0
            case PruneAll => db' == Prune(db, now)
            case ReconcileAll => db' == Reconcile(db, now)
  {
    if admin.NewPolicy? {
      PolicyWriteSo(s.db, admin.caller, admin.policy, now);
    } else if admin.SwapPolicy? {
      ComparedWriteExactly(s.db, admin.caller, admin.before, admin.after, now);
    }
    hide FinishPending, Prune, Reconcile, WritePolicy, CompareAndSetPolicy, PolicyWritten, StoredPolicy, Unrevoked,
         RevokeCaller, RevokeTokens;
  }

  // ---- what starts an execution -------------------------------------------------------------------

  /** The worker is about to claim a received request, as the caller that reserved it. */
  ghost predicate ClaimsDirectly(s: System, step: Step, rid: nat) {
    && step.ClaimDirect? && step.w in s.workers
    && var wk := s.workers[step.w];
       && wk.Claiming? && wk.job.rid == rid < |s.db.requests|
       && Entitled(s.db, s.db.requests[rid], Generation(wk.current), Some(wk.job.who), "allow")
  }

  /** The worker is about to claim a pending request the surface was heard to approve, before its deadline. */
  ghost predicate ClaimsReviewed(s: System, step: Step, rid: nat) {
    && step.ClaimReviewed? && step.w in s.workers
    && var wk := s.workers[step.w];
       && wk.Granting? && wk.watch.rid == rid < |s.db.requests|
       && s.db.requests[rid].status == PendingApproval
       && Entitled(s.db, s.db.requests[rid], Generation(wk.current), wk.watch.who, "review")
       && exists a :: 0 <= a < |s.db.approvals| && s.db.approvals[a].request == rid
                      && Later(wk.watch.now, step.now) < s.db.approvals[a].expiresAt
  }

  /** A step starts an execution exactly if it is one of the two claims, under the authority each asks for: neither
      claims without it nor refuses with it. */
  lemma ClaimsExactly(s: System, step: Step, rid: nat)
    requires Inv(s) && Next(s, step).Some?
    ensures Claims(s, step, rid) <==> ClaimsDirectly(s, step, rid) || ClaimsReviewed(s, step, rid)
  {
    if step.ClaimDirect? {
      DirectlyExactly(s, step.w, step.now, rid);
    } else if step.ClaimReviewed? {
      ReviewedExactly(s, step.w, step.now, rid);
    } else if Claims(s, step, rid) {
      OnlyClaimsStart(s, step, rid);
    }
    hide *;
  }

  lemma DirectlyExactly(s: System, w: nat, now: Time, rid: nat)
    requires Inv(s) && ClaimDirectNext(s, w, now).Some?
    ensures Starts(s.db, ClaimDirectNext(s, w, now).value.db, rid) <==> ClaimsDirectly(s, ClaimDirect(w, now), rid)
  {
    var wk := s.workers[w];
    assert WorkerOk(s.db, s.history, wk);
    DirectClaimExactly(s.db, wk.job.rid, Generation(wk.current), Some(wk.job.who), wk.job.digest, now);
    hide Inv, ClaimReceived, Entitled;
  }

  lemma ReviewedExactly(s: System, w: nat, now: Time, rid: nat)
    requires Inv(s) && ClaimReviewedNext(s, w, now).Some?
    ensures Starts(s.db, ClaimReviewedNext(s, w, now).value.db, rid) <==> ClaimsReviewed(s, ClaimReviewed(w, now), rid)
  {
    var wk := s.workers[w];
    WatchedApproval(s, w);
    var a := wk.a;
    if wk.watch.rid < |s.db.requests| && s.db.requests[wk.watch.rid].status == PendingApproval {
      ReviewedClaimExactly(s.db, wk.watch.rid, a, Generation(wk.current), wk.state, Later(wk.watch.now, now),
                           wk.watch.who);
      forall b | 0 <= b < |s.db.approvals| && s.db.approvals[b].request == wk.watch.rid ensures b == a {
        TheApproval(s.db, b);
      }
      hide Inv, ClaimApproval, Entitled;
    }
  }

  /** What a poll does about the surface's answer, once it has looked again: nothing, unless the request was still
      pending and its approval is still awaiting; past the deadline it ends the pair; else it does as it was told. */
  lemma HeedsExactly(db: Db, watch: Watch, a: nat, b: nat, ref: string, state: SurfaceState, at: Time, pending: bool)
    requires OneApproval(db) && b < |db.approvals| && db.approvals[b].request == watch.rid
    ensures var next, app := Weighed(db, watch, a, ref, state, at, pending), db.approvals[b];
            && (next == None <==>
                  !pending || app.status != Awaiting || (at < app.expiresAt && state.outcome == Undecided))
            && (next.Some? && app.expiresAt <= at ==>
                  next.value == Closing(watch.rid, Ending(Expired, Lapsed, None), None, at, true))
            && (next.Some? && at < app.expiresAt ==>
                  && (next.value.Judging? <==> state.outcome == Yes)
                  && (next.value.Closing? ==> next.value.ending == match state.outcome
                                                  case No => Ending(Denied, Rejected, Some("approval_rejected"))
                                                  case TimedOut => Ending(Expired, Lapsed, None)
                                                  case _ => Ending(Expired, Cancelled, None)))
  {
    TheApproval(db, b);
  }

  // ---- a policy write -----------------------------------------------------------------------------

  /** The step commits a policy for the caller, by a plain write or by one that still finds the policy compared. */
  ghost predicate CommitsPolicy(s: System, step: Step, caller: nat) {
    && step.Operate?
    && match step.admin
       case NewPolicy(c, _) => c == caller && caller < |s.db.callers|
       case SwapPolicy(c, before, _) => c == caller && Unrevoked(s.db, caller) && StoredPolicy(s.db, caller, before)
       case _ => false
  }

  lemma PolicyCommitted(s: System, step: Step, s': System, caller: nat)
    requires CommitsPolicy(s, step, caller) && Next(s, step) == Some(s')
    ensures PolicyWritten(s.db, s'.db, caller, if step.admin.NewPolicy? then step.admin.policy else step.admin.after,
                          step.now)
  {
    match step.admin
    case NewPolicy(c, policy) => PolicyWriteSo(s.db, c, policy, step.now);
    case SwapPolicy(c, before, after) => ComparedWriteExactly(s.db, c, before, after, step.now);
  }

  /** What waited under the old policy never executes: from the commit on the request is denied as invalidated and its
      approval cancelled, in every continuation, also one that stores the old policy again. */
  lemma PolicyWriteEndsPending(states: seq<System>, steps: seq<Step>, j: nat, k: nat, rid: nat, a: nat, caller: nat)
    requires Run(states, steps) && Inv(states[0]) && j < k < |states|
    requires CommitsPolicy(states[j], steps[j], caller) && CallerOf(states[j].db, rid, caller)
    requires states[j].db.requests[rid].status == PendingApproval
    requires a < |states[j].db.approvals| && states[j].db.approvals[a].request == rid
    ensures rid < |states[k].db.requests| && a < |states[k].db.approvals|
    ensures states[k].db.requests[rid].status == Denied && states[k].db.approvals[a].status == Cancelled
    ensures k < |steps| ==> !Claims(states[k], steps[k], rid)
  {
    hide Next, Claims, CommitsPolicy, Inv;
    assert Next(states[j], steps[j]) == Some(states[j + 1]);
    RunInv(states, steps, j);
    PendingEnded(states[j], steps[j], states[j + 1], rid, a, caller);
    RunEvolves(states, steps, j + 1, k);
    assert RowEvolves(states[j + 1].db.requests[rid], states[k].db.requests[rid]);
    assert ApprovalEvolves(states[j + 1].db.approvals[a], states[k].db.approvals[a]);
    RunInv(states, steps, k);
    if k < |steps| {
      EndedNeverClaims(states[k], steps[k], rid);
    }
  }

  lemma PendingEnded(s: System, step: Step, s': System, rid: nat, a: nat, caller: nat)
    requires Inv(s) && CommitsPolicy(s, step, caller) && Next(s, step) == Some(s')
    requires CallerOf(s.db, rid, caller) && s.db.requests[rid].status == PendingApproval
    requires a < |s.db.approvals| && s.db.approvals[a].request == rid
    ensures rid < |s'.db.requests| && s'.db.requests[rid].status == Denied
    ensures a < |s'.db.approvals| && s'.db.approvals[a].status == Cancelled
  {
    assert ApprovalOk(s.db, s.db.approvals[a]);
    hide Inv;
    PolicyCommitted(s, step, s', caller);
    hide Next, CommitsPolicy;
  }

  lemma EndedNeverClaims(s: System, step: Step, rid: nat)
    requires Inv(s) && rid < |s.db.requests| && Terminal(s.db.requests[rid].status)
    ensures !Claims(s, step, rid)
  {
    hide Next, Inv;
    if Claims(s, step, rid) {
      AuthorityAtCommit(s, step, rid);
      assert false;
    }
  }

  // ---- ended rows ---------------------------------------------------------------------------------

  ghost predicate HasEndedRow(db: Db, rid: nat) {
    rid < |db.requests| && Terminal(db.requests[rid].status)
  }

  ghost predicate SameRow(db: Db, db': Db, rid: nat) {
    rid < |db.requests| && rid < |db'.requests| && db'.requests[rid] == db.requests[rid]
  }

  lemma WriterSkipsEnded(s: System, w: nat, now: Time, reply: Reply, rid: nat)
    requires Inv(s) && HasEndedRow(s.db, rid)
    ensures RefuseNext(s, w, now).Some? ==> SameRow(s.db, RefuseNext(s, w, now).value.db, rid)
    ensures ParkNext(s, w, now).Some? ==> SameRow(s.db, ParkNext(s, w, now).value.db, rid)
    ensures FinishNext(s, w, reply, now).Some? ==> SameRow(s.db, FinishNext(s, w, reply, now).value.db, rid)
  {
    if w in s.workers && Owned(s.workers[w]).Some? {
      OwnedActive(s.db, s.history, s.workers[w]);
    }
  }

  lemma ClaimSkipsEnded(db: Db, rid: nat, r: nat, generation: Option<string>, who: Option<Principal>, expected: Digest,
                        state: SurfaceState, ending: Ending, answer: Option<SurfaceState>, now: Time,
                        deadlineOnly: bool)
    requires HasEndedRow(db, rid)
    ensures SameRow(db, ClaimReceived(db, r, generation, who, expected, now).0, rid)
    ensures SameRow(db, ClaimApproval(db, r, generation, state, now, who).0, rid)
    ensures SameRow(db, FinishPending(db, r, ending, answer, now, deadlineOnly).0, rid)
  {
    hide Authorized, Overruled;
  }

  lemma OperatorSkipsEnded(s: System, admin: Admin, now: Time, db': Db, rid: nat)
    requires HasEndedRow(s.db, rid) && Administer(s, admin, now) == Some(db')
    ensures rid < |db'.requests|
    ensures SameRow(s.db, db', rid) || (admin.PruneAll? && db'.requests[rid] == Pruned(s.db.requests[rid], now))
  {
    hide Overruled;
  }

  /** Once a request has ended its row is never written again, except by pruning. */
  lemma EndedRowKept(s: System, step: Step, s': System, rid: nat)
    requires Inv(s) && HasEndedRow(s.db, rid) && Next(s, step) == Some(s')
    ensures rid < |s'.db.requests|
    ensures s'.db.requests[rid] != s.db.requests[rid] ==>
              && step.Operate? && step.admin.PruneAll?
              && s'.db.requests[rid] == Pruned(s.db.requests[rid], step.now)
  {
    hide Inv, Administer, SubmitNext, JudgeNext, RefuseNext, OpenNext, RecordNext, ParkNext, LookupNext, DispatchNext,
      FinishNext, PollNext, ReadApprovalNext, AskNext, RecheckNext, WeighNext, ClaimReceived, ClaimApproval,
      FinishPending, Terminal, Pruned;
    var none := SurfaceState(Undecided, None, None, None);
    var blank := Sha256(Action(0, "", "", "", "", None, ""));
    match step {
      case Operate(admin, now) => OperatorSkipsEnded(s, admin, now, s'.db, rid);
      case ClaimDirect(w, now) =>
        var job := s.workers[w].job;
        ClaimSkipsEnded(s.db, rid, job.rid, Generation(s.workers[w].current), Some(job.who), job.digest, none, TIMEOUT,
                        None, now, false);
      case ClaimReviewed(w, now) =>
        var wk := s.workers[w];
        ClaimSkipsEnded(s.db, rid, wk.watch.rid, Generation(wk.current), wk.watch.who, blank, wk.state, TIMEOUT, None,
                        Later(wk.watch.now, now), false);
      case Close(w, now) =>
        var wk := s.workers[w];
        ClaimSkipsEnded(s.db, rid, wk.rid, None, None, blank, none, wk.ending, wk.answer,
                        if wk.deadlineOnly then wk.now else Later(wk.now, now), wk.deadlineOnly);
      case Refuse(w, now) => WriterSkipsEnded(s, w, now, Unclear, rid);
      case Park(w, now) => WriterSkipsEnded(s, w, now, Unclear, rid);
      case Finish(w, reply, now) => WriterSkipsEnded(s, w, now, reply, rid);
      case _ => ReaderSkips(s, step, s', rid);
    }
  }

  lemma ReaderSkips(s: System, step: Step, s': System, rid: nat)
    requires !step.Operate? && !step.ClaimDirect? && !step.ClaimReviewed? && !step.Close?
    requires !step.Refuse? && !step.Park? && !step.Finish?
    requires Next(s, step) == Some(s') && rid < |s.db.requests|
    ensures SameRow(s.db, s'.db, rid)
  {
    hide OperateNext, ClaimDirectNext, ClaimReviewedNext, RefuseNext, ParkNext, FinishNext, CloseNext, Live, Decide;
  }

  // ---- what became of a dispatch ------------------------------------------------------------------

  /** The step records the tool's reply for the request. */
  ghost predicate Records(s: System, step: Step, rid: nat) {
    step.Finish? && step.w in s.workers && s.workers[step.w] == Finishing(rid)
  }

  ghost predicate Says(s: System, step: Step, rid: nat, reply: Reply) {
    Records(s, step, rid) && step.reply == reply
  }

  /** Offline reconciliation found the request executing. */
  ghost predicate CutOff(s: System, step: Step, rid: nat) {
    && step.Operate? && step.admin.ReconcileAll?
    && rid < |s.db.requests| && s.db.requests[rid].status == Executing
  }

  /** Some step before the k-th recorded that reply. */
  ghost predicate Replied(states: seq<System>, steps: seq<Step>, k: nat, rid: nat, reply: Reply) {
    exists i :: 0 <= i < k && i < |steps| && i < |states| && Says(states[i], steps[i], rid, reply)
  }

  ghost predicate Reconciles(states: seq<System>, steps: seq<Step>, k: nat, rid: nat) {
    exists i :: 0 <= i < k && i < |steps| && i < |states| && CutOff(states[i], steps[i], rid)
  }

  /** Nothing was recorded yet: no reply, no reconciliation of an execution. */
  ghost predicate Unrecorded(states: seq<System>, steps: seq<Step>, k: nat, rid: nat) {
    && (forall reply :: !Replied(states, steps, k, rid, reply))
    && !Reconciles(states, steps, k, rid)
  }

  /** The one reply that was recorded, and nothing besides it. */
  ghost predicate OnlyReply(states: seq<System>, steps: seq<Step>, k: nat, rid: nat, reply: Reply) {
    && Replied(states, steps, k, rid, reply) && !Reconciles(states, steps, k, rid)
    && forall other :: Replied(states, steps, k, rid, other) ==> other == reply
  }

  ghost predicate OnlyCutOff(states: seq<System>, steps: seq<Step>, k: nat, rid: nat) {
    && Reconciles(states, steps, k, rid) && forall reply :: !Replied(states, steps, k, rid, reply)
  }

  /** The columns of a dispatched request tell what became of it. */
  ghost predicate Fate(states: seq<System>, steps: seq<Step>, k: nat, rid: nat)
    requires k < |states|
  {
    && rid < |states[k].db.requests|
    && var row := states[k].db.requests[rid];
       match row.status
       case Executing => Unrecorded(states, steps, k, rid)
       case Completed =>
         row.error == None && row.result.Some? && OnlyReply(states, steps, k, rid, Returned(row.result.value))
       case ResultExpired =>
         && row.error == None && row.result == None && row.prunedAt.Some?
         && exists result :: OnlyReply(states, steps, k, rid, Returned(result))
       case Failed => row.error == Some("tool_unreachable") && OnlyReply(states, steps, k, rid, Refused)
       case Unknown =>
         || (row.error == Some("execution_outcome_unknown") && OnlyReply(states, steps, k, rid, Unclear))
         || (row.error == Some("offline_reconciled") && OnlyCutOff(states, steps, k, rid))
       case _ => false
  }

  lemma OneMore(states: seq<System>, steps: seq<Step>, k: nat, n: nat, rid: nat)
    requires k < |steps| && k < |states| && n == k + 1
    ensures forall reply :: Replied(states, steps, n, rid, reply) <==>
              Replied(states, steps, k, rid, reply) || Says(states[k], steps[k], rid, reply)
    ensures Reconciles(states, steps, n, rid) <==>
              Reconciles(states, steps, k, rid) || CutOff(states[k], steps[k], rid)
  {
    hide Says, CutOff;
  }

  lemma HistoryGrows(s: System, step: Step, s': System)
    requires Next(s, step) == Some(s')
    ensures || s'.history == s.history
            || (exists e :: s'.history == s.history + [e]
                  && (e.Dispatched? ==>
                        && step.Dispatch? && e.rid < |s.db.requests| && s.db.requests[e.rid].status == Executing
                        && s'.db == s.db))
  {
    hide Reserve, Administer, ClaimReceived, ClaimApproval, FinishPending, UpdateRequest, Weighed, Judged,
      CreateApproval;
  }

  /** Only a dispatch of its own makes a request a dispatched one, and then it is executing. */
  lemma SpentStep(s: System, step: Step, s': System, rid: nat)
    requires Next(s, step) == Some(s')
    ensures Spent(s.history, rid) ==> Spent(s'.history, rid)
    ensures Spent(s'.history, rid) && !Spent(s.history, rid) ==>
              step.Dispatch? && rid < |s.db.requests| && s.db.requests[rid].status == Executing && s'.db == s.db
  {
    HistoryGrows(s, step, s');
    hide Next;
    assert forall i | 0 <= i < |s.history| :: s'.history[i] == s.history[i];
  }

  /** What a step does to an executing row of a dispatched request: a recorded reply or a reconciliation ends it,
      nothing else touches it. */
  ghost predicate EndedBy(s: System, step: Step, row: Request, row': Request, rid: nat) {
    if Records(s, step, rid) then
      && row'.status == (match step.reply case Returned(_) => Completed case Refused => Failed case Unclear => Unknown)
      && row'.error == (match step.reply case Returned(_) => None case Refused => Some("tool_unreachable")
                                         case Unclear => Some("execution_outcome_unknown"))
      && (step.reply.Returned? ==> row'.result == Some(step.reply.result))
    else if CutOff(s, step, rid) then row'.status == Unknown && row'.error == Some("offline_reconciled")
    else row' == row
  }

  lemma RecordedRow(s: System, step: Step, s': System, rid: nat)
    requires Next(s, step) == Some(s') && Records(s, step, rid)
    requires rid < |s.db.requests| && s.db.requests[rid].error == None
    ensures rid < |s'.db.requests| && EndedBy(s, step, s.db.requests[rid], s'.db.requests[rid], rid)
  {
  }

  lemma CutOffRow(s: System, step: Step, s': System, rid: nat)
    requires Next(s, step) == Some(s') && CutOff(s, step, rid)
    ensures rid < |s'.db.requests| && EndedBy(s, step, s.db.requests[rid], s'.db.requests[rid], rid)
  {
  }

  lemma ExecutingStep(s: System, step: Step, s': System, rid: nat)
    requires Inv(s) && Next(s, step) == Some(s') && Spent(s.history, rid)
    requires rid < |s.db.requests| && s.db.requests[rid].status == Executing
    ensures rid < |s'.db.requests| && EndedBy(s, step, s.db.requests[rid], s'.db.requests[rid], rid)
  {
    if Records(s, step, rid) {
      assert RowOk(s.db, s.db.requests[rid]);
      RecordedRow(s, step, s', rid);
    } else if CutOff(s, step, rid) {
      CutOffRow(s, step, s', rid);
    } else {
      OtherwiseSame(s, step, s', rid);
    }
    hide *;
  }

  lemma OtherwiseSame(s: System, step: Step, s': System, rid: nat)
    requires Inv(s) && Next(s, step) == Some(s') && Spent(s.history, rid)
    requires rid < |s.db.requests| && s.db.requests[rid].status == Executing
    requires !Records(s, step, rid) && !CutOff(s, step, rid)
    ensures SameRow(s.db, s'.db, rid)
  {
    StepKeeps(s, step);
    if s'.db.requests[rid] != s.db.requests[rid] {
      OnlyOwnerMoves(s, step, s', rid);
      if !step.Operate? {
        OwnerIsFinishing(s, step.w, rid);
        FinishingOnly(s, step, s', rid);
      }
    }
    hide Inv, Spent;
  }

  /** A worker waiting for the tool's reply records it or dies. */
  lemma FinishingOnly(s: System, step: Step, s': System, rid: nat)
    requires Next(s, step) == Some(s') && !step.Operate? && step.w in s.workers && s.workers[step.w] == Finishing(rid)
    ensures step.Finish? || (step.Crash? && s'.db == s.db)
  {
  }

  lemma OwnerIsFinishing(s: System, w: nat, rid: nat)
    requires Inv(s) && Spent(s.history, rid) && w in s.workers && Owned(s.workers[w]) == Some(rid)
    requires rid < |s.db.requests| && s.db.requests[rid].status == Executing
    ensures s.workers[w] == Finishing(rid)
  {
    assert WorkerOk(s.db, s.history, s.workers[w]);
  }

  lemma FateStep(states: seq<System>, steps: seq<Step>, k: nat, n: nat, rid: nat)
    requires Run(states, steps) && k < |steps| && n == k + 1 && Inv(states[k]) && Spent(states[k].history, rid)
    requires Fate(states, steps, k, rid)
    ensures Fate(states, steps, n, rid)
  {
    hide Next, Inv, Replied, Reconciles, Pruned;
    var s, step, s' := states[k], steps[k], states[k + 1];
    assert Next(s, step) == Some(s');
    OneMore(states, steps, k, n, rid);
    if s.db.requests[rid].status == Executing {
      ExecutingStep(s, step, s', rid);
      assert Unrecorded(states, steps, k, rid);
    } else {
      EndedRowKept(s, step, s', rid);
      EndedUnrecorded(s, step, rid);
      if step.Operate? {
        PrunedSo(s.db.requests[rid], step);
      }
    }
  }

  lemma PrunedSo(row: Request, step: Step)
    requires step.Operate?
    ensures var row' := Pruned(row, step.now);
            && row'.status == (if row.status == Completed then ResultExpired else row.status)
            && row'.error == row.error && row'.result == None && row'.prunedAt.Some?
  {
  }

  lemma EndedUnrecorded(s: System, step: Step, rid: nat)
    requires Inv(s) && HasEndedRow(s.db, rid)
    ensures !Records(s, step, rid) && !CutOff(s, step, rid)
  {
    if step.Finish? && step.w in s.workers {
      assert WorkerOk(s.db, s.history, s.workers[step.w]);
    }
  }

  /** Before its dispatch no reply is recorded for a request, and one that was reconciled is never dispatched. */
  ghost predicate Undispatched(states: seq<System>, steps: seq<Step>, k: nat, rid: nat)
    requires k < |states|
  {
    && (forall reply :: !Replied(states, steps, k, rid, reply))
    && (Reconciles(states, steps, k, rid) ==> HasEndedRow(states[k].db, rid))
  }

  lemma UndispatchedStep(states: seq<System>, steps: seq<Step>, k: nat, n: nat, rid: nat)
    requires Run(states, steps) && k < |steps| && n == k + 1 && Inv(states[k]) && !Spent(states[k].history, rid)
    requires Undispatched(states, steps, k, rid)
    ensures if Spent(states[n].history, rid) then Fate(states, steps, n, rid) else Undispatched(states, steps, n, rid)
  {
    hide Next, Inv, Replied, Reconciles, Spent, Evolves;
    var s, step, s' := states[k], steps[k], states[k + 1];
    assert Next(s, step) == Some(s');
    OneMore(states, steps, k, n, rid);
    SpentStep(s, step, s', rid);
    UnspentStep(s, step, s', rid);
    if HasEndedRow(s.db, rid) {
      EndedRowKept(s, step, s', rid);
      EndedUnrecorded(s, step, rid);
    }
  }

  lemma UnspentStep(s: System, step: Step, s': System, rid: nat)
    requires Inv(s) && Next(s, step) == Some(s') && !Spent(s.history, rid)
    ensures !Records(s, step, rid) && (CutOff(s, step, rid) ==> HasEndedRow(s'.db, rid))
  {
    hide Spent;
    if step.Finish? && step.w in s.workers {
      assert WorkerOk(s.db, s.history, s.workers[step.w]);
    }
    if CutOff(s, step, rid) {
      ReconcilesExactly(s.db, step.now);
    }
  }

  /** In every state of every run, a dispatched request's row says what became of it. It is executing exactly as long
      as neither a reply nor a reconciliation was recorded. It completed exactly if the tool returned, with that result
      and no error; it failed exactly if the connection was refused; and its outcome is unknown exactly if the reply
      was unclear or the broker was cut off. Only one reply is ever recorded. */
  lemma {:induction false} DispatchedFate(states: seq<System>, steps: seq<Step>, k: nat, rid: nat)
    requires Run(states, steps) && Booted(states[0]) && DbInv(states[0].db) && k < |states|
    ensures if Spent(states[k].history, rid) then Fate(states, steps, k, rid) else Undispatched(states, steps, k, rid)
  {
    hide Next, Fate, Undispatched, Spent, DbInv;
    if k > 0 {
      DispatchedFate(states, steps, k - 1, rid);
      BootedOk(states[0]);
      RunInv(states, steps, k - 1);
      if Spent(states[k - 1].history, rid) {
        assert Next(states[k - 1], steps[k - 1]) == Some(states[k - 1 + 1]);
        SpentStep(states[k - 1], steps[k - 1], states[k], rid);
        FateStep(states, steps, k - 1, k, rid);
      } else {
        UndispatchedStep(states, steps, k - 1, k, rid);
      }
    } else {
      NothingYet(states, steps, rid);
    }
  }

  lemma NothingYet(states: seq<System>, steps: seq<Step>, rid: nat)
    requires |states| > 0 && states[0].history == []
    ensures !Spent(states[0].history, rid) && Undispatched(states, steps, 0, rid)
  {
  }
}
