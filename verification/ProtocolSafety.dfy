/** What holds of every run of the broker, however its workers, the operator and crashes interleave. */
module ProtocolSafety {
  import opened Wrappers
  import opened PolicyRules
  import opened BrokerDb
  import opened BrokerInvariant
  import opened Protocol
  import opened ProtocolInvariant

  /** A broker started on tables that satisfy the invariant, with no handler in flight. */
  predicate Booted(s: System) {
    s.workers == map[] && s.history == []
  }

  lemma BootedOk(s: System)
    requires Booted(s) && DbInv(s.db)
    ensures Inv(s)
  {
  }

  lemma {:induction false} RunInv(states: seq<System>, steps: seq<Step>, k: nat)
    requires Run(states, steps) && Inv(states[0]) && k < |states|
    ensures Inv(states[k])
  {
    hide Next;
    if k > 0 {
      RunInv(states, steps, k - 1);
      assert Next(states[k - 1], steps[k - 1]) == Some(states[k - 1 + 1]);
      StepKeeps(states[k - 1], steps[k - 1]);
    }
  }

  /** Irreversibility: between any two moments of a run nothing is deleted or rebound, statuses only descend
      and revocations stay. */
  lemma {:induction false} RunEvolves(states: seq<System>, steps: seq<Step>, j: nat, k: nat)
    requires Run(states, steps) && Inv(states[0]) && j <= k < |states|
    ensures Evolves(states[j].db, states[k].db)
    decreases k
  {
    hide Next;
    RunInv(states, steps, j);
    if j < k {
      RunEvolves(states, steps, j, k - 1);
      RunInv(states, steps, k - 1);
      assert Next(states[k - 1], steps[k - 1]) == Some(states[k - 1 + 1]);
      StepKeeps(states[k - 1], steps[k - 1]);
      EvolvesTransitive(states[j].db, states[k - 1].db, states[k].db);
    } else {
      SameTables(states[j].db);
    }
  }

  /** How often a request's status changes over a sequence of states. */
  function Changes(states: seq<System>, rid: nat): nat {
    if |states| < 2 then 0
    else
      (if rid < |states[0].db.requests| && rid < |states[1].db.requests|
          && states[0].db.requests[rid].status != states[1].db.requests[rid].status then 1 else 0)
      + Changes(states[1..], rid)
  }

  /** A request changes status at most as often as its rank allows: four times ever, from received. */
  lemma {:induction false} FewChanges(states: seq<System>, steps: seq<Step>, rid: nat)
    requires Run(states, steps) && Inv(states[0])
    ensures rid < |states[0].db.requests| ==> Changes(states, rid) <= Rank(states[0].db.requests[rid].status)
    ensures Changes(states, rid) <= 4
    decreases |steps|
  {
    if |steps| > 0 {
      assert Next(states[0], steps[0]) == Some(states[0 + 1]);
      StepKeeps(states[0], steps[0]);
      forall i | 0 <= i < |steps[1..]| ensures Next(states[1..][i], steps[1..][i]) == Some(states[1..][i + 1]) {
        assert Next(states[i + 1], steps[i + 1]) == Some(states[i + 1 + 1]);
      }
      FewChanges(states[1..], steps[1..], rid);
      if rid < |states[0].db.requests| {
        assert RowEvolves(states[0].db.requests[rid], states[1].db.requests[rid]);
      }
    }
  }

  // ---- ownership ----------------------------------------------------------------------------------

  function Row(db: Db, rid: nat): Option<Request> {
    if rid < |db.requests| then Some(db.requests[rid]) else None
  }

  ghost predicate Active(db: Db, rid: nat) {
    rid < |db.requests| && db.requests[rid].status in {Received, Executing}
  }

  /** The step is offline reconciliation with no worker left, or belongs to the worker owning the row. */
  ghost predicate ByOwner(s: System, step: Step, rid: nat) {
    if step.Operate? then step.admin.ReconcileAll? && s.workers == map[]
    else step.w in s.workers && Owned(s.workers[step.w]) == Some(rid)
  }

  /** Only the creator advances a received row and only the claimer finishes an executing one. */
  lemma OnlyOwnerMoves(s: System, step: Step, s': System, rid: nat)
    requires Inv(s) && Active(s.db, rid) && Row(s'.db, rid) != Row(s.db, rid)
    requires Next(s, step) == Some(s')
    ensures ByOwner(s, step, rid)
  {
    hide Next, Inv;
    StepKeeps(s, step);
    if step.Operate? && step.admin.ReconcileAll? {
      ReconcileIdle(s, step, s');
    } else {
      var but := if step.Operate? then {} else Owns(s, step.w);
      assert rid in but || SameFor(s.db, s'.db, rid);
    }
  }

  lemma ReconcileIdle(s: System, step: Step, s': System)
    requires step.Operate? && step.admin.ReconcileAll?
    requires Next(s, step) == Some(s')
    ensures s.workers == map[]
  {
  }

  // ---- at most once -------------------------------------------------------------------------------

  /** Two dispatches never serve the same idempotency key of the same caller. */
  ghost predicate KeysOnce(db: Db, h: seq<Event>) {
    forall i, j | 0 <= i < j < |h| && h[i].Dispatched? && h[j].Dispatched? ::
      h[i].rid < |db.requests| && h[j].rid < |db.requests|
      && !SameKey(db.requests[h[i].rid].bound, db.requests[h[j].rid].bound)
  }

  ghost predicate AllAsReserved(db: Db, h: seq<Event>) {
    forall i | 0 <= i < |h| && h[i].Dispatched? ::
      AsReserved(db, h[i].rid, h[i].tool, h[i].op, h[i].generation, h[i].arguments)
  }

  /** Every request is claimed at most once and dispatched at most once, each dispatch after its claim and
      with exactly the operation and arguments reserved; and an idempotency key of a caller is dispatched
      at most once, whatever happened in between. */
  lemma DispatchedAtMostOnce(states: seq<System>, steps: seq<Step>, k: nat)
    requires Run(states, steps) && Booted(states[0]) && DbInv(states[0].db) && k < |states|
    ensures AtMostOnce(states[k].history)
    ensures AllAsReserved(states[k].db, states[k].history)
    ensures KeysOnce(states[k].db, states[k].history)
  {
    hide Next;
    BootedOk(states[0]);
    RunInv(states, steps, k);
    var s := states[k];
    assert forall i | 0 <= i < |s.history| :: EventOk(s.db, s.history[i]);
    forall i, j | 0 <= i < j < |s.history| && s.history[i].Dispatched? && s.history[j].Dispatched?
      ensures !SameKey(s.db.requests[s.history[i].rid].bound, s.db.requests[s.history[j].rid].bound)
    {
      var a, b := s.history[i].rid, s.history[j].rid;
      assert a != b;
      assert if a < b then !SameKey(s.db.requests[a].bound, s.db.requests[b].bound)
                      else !SameKey(s.db.requests[b].bound, s.db.requests[a].bound);
    }
  }

  // ---- authority at the commit point --------------------------------------------------------------

  ghost predicate Starts(db: Db, db': Db, rid: nat) {
    && rid < |db'.requests| && db'.requests[rid].status == Executing
    && (rid < |db.requests| ==> db.requests[rid].status != Executing)
  }

  /** A request starts executing in this step. */
  ghost predicate Claims(s: System, step: Step, rid: nat) {
    Next(s, step).Some? && Starts(s.db, Next(s, step).value.db, rid)
  }

  /** Who presents itself at a claim. */
  function Claimant(wk: Worker): Option<Principal> {
    match wk
    case Claiming(job, _) => Some(job.who)
    case Granting(watch, _, _, _, _) => watch.who
    case _ => None
  }

  /** Live authority, the policy bound at reservation with the effect this path needs, the loaded entry. */
  ghost predicate AuthorityHolds(db: Db, row: Request, who: Option<Principal>, toolOp: ToolOp, effect: Effect) {
    var b := row.bound;
    && Live(db, b.caller, who)
    && PolicyFor(db, b.caller) == b.policy && Decide(b.policy, b.tool, b.op) == effect
    && toolOp.tool == b.tool && toolOp.op == b.op && toolOp.generation == b.generation
  }

  /** A direct claim is of a received row that the policy allows, by the caller that submitted it. */
  ghost predicate DirectClaim(s: System, wk: Worker, rid: nat) {
    && wk.Claiming? && wk.current.Some? && wk.job.rid == rid
    && rid < |s.db.requests| && s.db.requests[rid].status == Received
    && AuthorityHolds(s.db, s.db.requests[rid], Some(wk.job.who), wk.current.value, Allow)
  }

  /** A reviewed claim is of a pending row that the policy sends to review, after the surface was heard to
      approve that request's own reference. */
  ghost predicate ReviewedClaim(s: System, wk: Worker, rid: nat) {
    && wk.Granting? && wk.current.Some? && wk.watch.rid == rid
    && rid < |s.db.requests| && s.db.requests[rid].status == PendingApproval
    && AuthorityHolds(s.db, s.db.requests[rid], wk.watch.who, wk.current.value, Review)
    && HasApproval(s.db, rid)
    && var app := s.db.approvals[ApprovalIndex(s.db.approvals, rid)];
       && app.status == Awaiting
       && app.digest == s.db.requests[rid].bound.digest
       && Heard(app.ref, Yes) in s.history
  }

  /** The claim hands its worker the looked-up entry and the arguments reserved. */
  ghost predicate HandsOver(s: System, wk: Worker, w: nat, rid: nat, s': System) {
    && rid < |s.db.requests| && w in s'.workers && (wk.Claiming? || wk.Granting?) && wk.current.Some?
    && s'.workers[w] == Running(rid, wk.current.value, s.db.requests[rid].bound.digest.action.arguments)
  }

  /** No operator transaction starts an execution. */
  lemma AdminNeverStarts(s: System, admin: Admin, now: Time, db': Db, rid: nat)
    requires Administer(s, admin, now) == Some(db')
    ensures !Starts(s.db, db', rid)
  {
  }

  lemma OperatorNeverClaims(s: System, step: Step, rid: nat)
    requires step.Operate?
    ensures !Claims(s, step, rid)
  {
    hide Administer, Starts;
    if Administer(s, step.admin, step.now).Some? {
      AdminNeverStarts(s, step.admin, step.now, Administer(s, step.admin, step.now).value, rid);
    }
  }

  /** A step that starts no execution, answers no approval and issues nothing. */
  ghost predicate Plain(db: Db, db': Db) {
    && (forall rid: nat :: !Starts(db, db', rid))
    && |db.approvals| <= |db'.approvals|
    && (forall a | 0 <= a < |db.approvals| :: db'.approvals[a] == db.approvals[a])
    && db'.tokens == db.tokens && db'.policies == db.policies
  }

  lemma SubmitPlain(s: System, step: Step)
    requires step.Submit? && SubmitNext(s, step).Some?
    ensures Plain(s.db, SubmitNext(s, step).value.db)
  {
  }

  lemma RefusePlain(s: System, w: nat, now: Time)
    requires Inv(s) && RefuseNext(s, w, now).Some?
    ensures Plain(s.db, RefuseNext(s, w, now).value.db)
  {
  }

  lemma ParkPlain(s: System, w: nat, now: Time)
    requires ParkNext(s, w, now).Some?
    ensures Plain(s.db, ParkNext(s, w, now).value.db)
  {
  }

  lemma FinishPlain(s: System, w: nat, reply: Reply, now: Time)
    requires FinishNext(s, w, reply, now).Some?
    ensures Plain(s.db, FinishNext(s, w, reply, now).value.db)
  {
  }

  lemma ReaderPlain(s: System, step: Step, s': System)
    requires !step.Operate? && !step.ClaimDirect? && !step.ClaimReviewed? && !step.Close?
    requires !step.Submit? && !step.Refuse? && !step.Park? && !step.Finish?
    requires Next(s, step) == Some(s')
    ensures Plain(s.db, s'.db)
  {
    hide OperateNext, ClaimDirectNext, ClaimReviewedNext, SubmitNext, RefuseNext, ParkNext, FinishNext, CloseNext;
  }

  lemma WorkerPlain(s: System, step: Step, s': System)
    requires Inv(s) && !step.Operate? && !step.ClaimDirect? && !step.ClaimReviewed? && !step.Close?
    requires Next(s, step) == Some(s')
    ensures Plain(s.db, s'.db)
  {
    hide SubmitNext, JudgeNext, RefuseNext, OpenNext, RecordNext, ParkNext, LookupNext, ClaimDirectNext, DispatchNext,
      FinishNext, PollNext, ReadApprovalNext, AskNext, RecheckNext, WeighNext, ClaimReviewedNext, CloseNext,
      OperateNext, Plain, Inv;
    match step {
      case Submit(_, _, _, _, _, _, _, _, _, _) => SubmitPlain(s, step);
      case Refuse(w, now) => RefusePlain(s, w, now);
      case Park(w, now) => ParkPlain(s, w, now);
      case Finish(w, reply, now) => FinishPlain(s, w, reply, now);
      case _ => ReaderPlain(s, step, s');
    }
  }

  /** Closing a pending request starts nothing, and claims answer only the approval they claim by. */
  lemma CloseStartsNothing(s: System, w: nat, now: Time, rid: nat)
    requires Inv(s) && CloseNext(s, w, now).Some?
    ensures !Starts(s.db, CloseNext(s, w, now).value.db, rid)
  {
    assert WorkerOk(s.db, s.history, s.workers[w]);
  }

  /** Only the two claims start an execution. */
  lemma OnlyClaimsStart(s: System, step: Step, rid: nat)
    requires Inv(s) && Claims(s, step, rid)
    ensures step.ClaimDirect? || step.ClaimReviewed?
  {
    hide Inv, OperateNext, ClaimDirectNext, ClaimReviewedNext, SubmitNext, JudgeNext, RefuseNext, OpenNext, RecordNext,
      ParkNext, LookupNext, DispatchNext, FinishNext, PollNext, ReadApprovalNext, AskNext, RecheckNext, WeighNext,
      CloseNext;
    if step.Operate? {
      OperatorNeverClaims(s, step, rid);
    } else if step.Close? {
      CloseStartsNothing(s, step.w, step.now, rid);
    } else if !(step.ClaimDirect? || step.ClaimReviewed?) {
      WorkerPlain(s, step, Next(s, step).value);
    }
  }

  /** The commit point: every entry into executing happens under live authority, the very policy bound at
      reservation and the loaded generation, and hands the reserved action to its worker. */
  lemma AuthorityAtCommit(s: System, step: Step, rid: nat)
    requires Inv(s) && Claims(s, step, rid)
    ensures !step.Operate? && step.w in s.workers
    ensures DirectClaim(s, s.workers[step.w], rid) || ReviewedClaim(s, s.workers[step.w], rid)
    ensures HandsOver(s, s.workers[step.w], step.w, rid, Next(s, step).value)
  {
    OnlyClaimsStart(s, step, rid);
    if step.ClaimDirect? {
      DirectCommit(s, step.w, step.now, rid);
    } else {
      ReviewedCommit(s, step.w, step.now, rid);
    }
  }

  lemma DirectCommit(s: System, w: nat, now: Time, rid: nat)
    requires Inv(s) && ClaimDirectNext(s, w, now).Some?
    requires Starts(s.db, ClaimDirectNext(s, w, now).value.db, rid)
    ensures w in s.workers && DirectClaim(s, s.workers[w], rid)
    ensures HandsOver(s, s.workers[w], w, rid, ClaimDirectNext(s, w, now).value)
  {
    assert WorkerOk(s.db, s.history, s.workers[w]);
  }

  /** A reviewed claim of a watched row succeeds only under unchanged authority, and then by its own approval. */
  lemma ReviewedSo(db: Db, h: seq<Event>, wk: Worker, now: Time, rid: nat)
    requires wk.Granting? && WorkerOk(db, h, wk)
    requires wk.a < |db.approvals| && wk.a == ApprovalIndex(db.approvals, wk.watch.rid)
    requires Starts(db, ClaimApproval(db, wk.watch.rid, Generation(wk.current), wk.state, now, wk.watch.who).0, rid)
    ensures ClaimApproval(db, wk.watch.rid, Generation(wk.current), wk.state, now, wk.watch.who).1
    ensures wk.current.Some? && wk.watch.rid == rid < |db.requests| && db.requests[rid].status == PendingApproval
    ensures AuthorityHolds(db, db.requests[rid], wk.watch.who, wk.current.value, Review)
    ensures db.approvals[wk.a].status == Awaiting && db.approvals[wk.a].digest == db.requests[rid].bound.digest
    ensures Heard(db.approvals[wk.a].ref, Yes) in h
    ensures wk.watch.row.arguments == Some(db.requests[rid].bound.digest.action.arguments)
  {
    hide Decide, Live, PolicyFor;
  }

  lemma WatchedApproval(s: System, w: nat)
    requires Inv(s) && w in s.workers && s.workers[w].Granting?
    ensures var wk := s.workers[w];
            && WorkerOk(s.db, s.history, wk)
            && wk.a < |s.db.approvals| && wk.a == ApprovalIndex(s.db.approvals, wk.watch.rid)
            && s.db.approvals[wk.a].request == wk.watch.rid
  {
    assert WorkerOk(s.db, s.history, s.workers[w]);
    hide WorkersOk;
    TheApproval(s.db, s.workers[w].a);
  }

  lemma ReviewedCommit(s: System, w: nat, now: Time, rid: nat)
    requires Inv(s) && ClaimReviewedNext(s, w, now).Some?
    requires Starts(s.db, ClaimReviewedNext(s, w, now).value.db, rid)
    ensures w in s.workers && ReviewedClaim(s, s.workers[w], rid)
    ensures HandsOver(s, s.workers[w], w, rid, ClaimReviewedNext(s, w, now).value)
  {
    hide Inv, WorkerOk, ClaimApproval, Starts, AuthorityHolds, ApprovalIndex;
    var wk := s.workers[w];
    WatchedApproval(s, w);
    ReviewedSo(s.db, s.history, wk, Later(wk.watch.now, now), rid);
  }

  // ---- withdrawn authority ------------------------------------------------------------------------

  ghost predicate CallerOf(db: Db, rid: nat, caller: nat) {
    rid < |db.requests| && db.requests[rid].bound.caller == caller
  }

  ghost predicate TokenRevoked(db: Db, hash: string) {
    hash in db.tokens && db.tokens[hash].revokedAt.Some?
  }

  /** After a caller's revocation has committed, none of its requests ever starts executing: also one caught
      between its approval row and its pending status, which revocation cannot cancel. */
  lemma RevokedCallerNeverExecutes(states: seq<System>, steps: seq<Step>, j: nat, k: nat, rid: nat, caller: nat)
    requires Run(states, steps) && Inv(states[0]) && j <= k < |steps|
    requires caller < |states[j].db.callers| && CallerRevoked(states[j].db, caller)
    requires CallerOf(states[k].db, rid, caller)
    ensures !Claims(states[k], steps[k], rid)
  {
    hide Next;
    RunInv(states, steps, k);
    RunEvolves(states, steps, j, k);
    if Claims(states[k], steps[k], rid) {
      AuthorityAtCommit(states[k], steps[k], rid);
      assert false;
    }
  }

  /** After a token's revocation has committed, no claim succeeds that presents it. */
  lemma RevokedTokenNeverClaims(states: seq<System>, steps: seq<Step>, j: nat, k: nat, rid: nat, hash: string)
    requires Run(states, steps) && Inv(states[0]) && j <= k < |steps|
    requires TokenRevoked(states[j].db, hash) && Claims(states[k], steps[k], rid)
    ensures !steps[k].Operate? && steps[k].w in states[k].workers
    ensures match Claimant(states[k].workers[steps[k].w])
            case None => true
            case Some(who) => who.token != Some(hash)
  {
    hide Next;
    RunInv(states, steps, k);
    RunEvolves(states, steps, j, k);
    AuthorityAtCommit(states[k], steps[k], rid);
  }

  /** The step gives a caller without a live token one. */
  ghost predicate GivesToken(s: System, step: Step, s': System, caller: nat) {
    && step.Operate? && step.admin.NewToken? && step.admin.caller == caller
    && !HasActiveToken(s.db, caller) && HasActiveToken(s'.db, caller)
  }

  /** The step commits another policy for a caller that had only the empty one. */
  ghost predicate GivesPolicy(s: System, step: Step, s': System, caller: nat) {
    && step.Operate? && (step.admin.NewPolicy? || step.admin.SwapPolicy?) && step.admin.caller == caller
    && PolicyFor(s.db, caller) == EMPTY_POLICY != PolicyFor(s'.db, caller)
  }

  /** Some step before the k-th gave the caller a live token. */
  ghost predicate TokenIssued(states: seq<System>, steps: seq<Step>, k: nat, caller: nat) {
    exists i :: 0 <= i < k && i < |steps| && i + 1 < |states| && GivesToken(states[i], steps[i], states[i + 1], caller)
  }

  ghost predicate PolicyIssued(states: seq<System>, steps: seq<Step>, k: nat, caller: nat) {
    exists i :: 0 <= i < k && i < |steps| && i + 1 < |states| && GivesPolicy(states[i], steps[i], states[i + 1], caller)
  }

  lemma {:induction false} NothingIssued(states: seq<System>, steps: seq<Step>, k: nat, caller: nat)
    requires Run(states, steps) && Inv(states[0]) && k < |states|
    requires !HasActiveToken(states[0].db, caller) && PolicyFor(states[0].db, caller) == EMPTY_POLICY
    ensures !TokenIssued(states, steps, k, caller) ==> !HasActiveToken(states[k].db, caller)
    ensures !PolicyIssued(states, steps, k, caller) ==> PolicyFor(states[k].db, caller) == EMPTY_POLICY
  {
    hide Next, HasActiveToken, PolicyFor;
    if k > 0 {
      NothingIssued(states, steps, k - 1, caller);
      RunInv(states, steps, k - 1);
      assert Next(states[k - 1], steps[k - 1]) == Some(states[k - 1 + 1]);
      IssuesAuthority(states[k - 1], steps[k - 1], states[k], caller);
    }
  }

  lemma ClaimsIssueNothing(db: Db, rid: nat, generation: Option<string>, who: Option<Principal>, expected: Digest,
                           state: SurfaceState, ending: Ending, answer: Option<SurfaceState>, now: Time,
                           deadlineOnly: bool)
    ensures var db' := ClaimReceived(db, rid, generation, who, expected, now).0;
            db'.tokens == db.tokens && db'.policies == db.policies
    ensures var db' := ClaimApproval(db, rid, generation, state, now, who).0;
            db'.tokens == db.tokens && db'.policies == db.policies
    ensures var db' := FinishPending(db, rid, ending, answer, now, deadlineOnly).0;
            db'.tokens == db.tokens && db'.policies == db.policies
  {
    hide Authorized, Overruled;
  }

  lemma WorkersIssueNothing(s: System, step: Step, s': System)
    requires Inv(s) && !step.Operate? && Next(s, step) == Some(s')
    ensures s'.db.tokens == s.db.tokens && s'.db.policies == s.db.policies
  {
    hide Inv, OperateNext, SubmitNext, JudgeNext, RefuseNext, OpenNext, RecordNext, ParkNext, LookupNext, DispatchNext,
      FinishNext, PollNext, ReadApprovalNext, AskNext, RecheckNext, WeighNext, ClaimReceived, ClaimApproval,
      FinishPending;
    var none := SurfaceState(Undecided, None, None, None);
    var wk := if step.w in s.workers then s.workers[step.w] else Finishing(0);
    if step.ClaimDirect? {
      ClaimsIssueNothing(s.db, wk.job.rid, Generation(wk.current), Some(wk.job.who), wk.job.digest, none, TIMEOUT,
                         None, step.now, false);
    } else if step.ClaimReviewed? {
      ClaimsIssueNothing(s.db, wk.watch.rid, Generation(wk.current), wk.watch.who, wk.watch.row.bound.digest, wk.state,
                         TIMEOUT, None, Later(wk.watch.now, step.now), false);
    } else if step.Close? {
      var at := if wk.deadlineOnly then wk.now else Later(wk.now, step.now);
      ClaimsIssueNothing(s.db, wk.rid, None, None, Sha256(Action(0, "", "", "", "", None, "")), none, wk.ending,
                         wk.answer, at, wk.deadlineOnly);
    } else {
      WorkerPlain(s, step, s');
    }
  }

  /** Only the two issuing operations give a caller a live token or another policy. */
  lemma OperatorIssues(s: System, admin: Admin, now: Time, db': Db, caller: nat)
    requires Administer(s, admin, now) == Some(db')
    ensures HasActiveToken(db', caller) && !HasActiveToken(s.db, caller) ==> admin.NewToken? && admin.caller == caller
    ensures PolicyFor(db', caller) != PolicyFor(s.db, caller) ==>
              (admin.NewPolicy? || admin.SwapPolicy?) && admin.caller == caller
  {
  }

  lemma IssuesAuthority(s: System, step: Step, s': System, caller: nat)
    requires Inv(s) && Next(s, step) == Some(s')
    ensures HasActiveToken(s'.db, caller) && !HasActiveToken(s.db, caller) ==> GivesToken(s, step, s', caller)
    ensures PolicyFor(s'.db, caller) != PolicyFor(s.db, caller) == EMPTY_POLICY ==> GivesPolicy(s, step, s', caller)
  {
    hide Inv, Administer, SubmitNext, JudgeNext, RefuseNext, OpenNext, RecordNext, ParkNext, LookupNext,
      ClaimDirectNext, DispatchNext, FinishNext, PollNext, ReadApprovalNext, AskNext, RecheckNext, WeighNext,
      ClaimReviewedNext, CloseNext;
    if step.Operate? {
      OperatorIssues(s, step.admin, step.now, s'.db, caller);
    } else {
      WorkersIssueNothing(s, step, s');
    }
  }

  /** After a restore no request of the snapshot is ever claimed, and nothing at all is claimed for a caller
      until it was given both a live token and a policy other than the empty one again. */
  lemma RestoredAuthority(db: Db, now: Time, states: seq<System>, steps: seq<Step>, k: nat, rid: nat, caller: nat)
    requires DbInv(db) && Run(states, steps) && states[0] == System(Sanitize(db, now), map[], [])
    requires k < |steps| < |states| && Claims(states[k], steps[k], rid) && CallerOf(states[k].db, rid, caller)
    ensures rid >= |db.requests|
    ensures TokenIssued(states, steps, k, caller) && PolicyIssued(states, steps, k, caller)
  {
    hide *;
    SanitizeKeeps(db, now);
    RestoredBoot(db, now, states[0]);
    RunInv(states, steps, k);
    AuthorityAtCommit(states[k], steps[k], rid);
    ClaimNeeds(states[k], states[k].workers[steps[k].w], rid, caller);
    NothingIssued(states, steps, k, caller);
    TerminalStays(states, steps, 0, k, rid);
  }

  lemma RestoredBoot(db: Db, now: Time, s: System)
    requires DbInv(db) && s == System(Sanitize(db, now), map[], [])
    ensures Inv(s)
  {
    SanitizeKeeps(db, now);
    BootedOk(s);
  }

  /** Any claim needs a live token, a policy that is not empty, and a row that is not terminal. */
  lemma ClaimNeeds(s: System, wk: Worker, rid: nat, caller: nat)
    requires (DirectClaim(s, wk, rid) || ReviewedClaim(s, wk, rid)) && CallerOf(s.db, rid, caller)
    ensures rid < |s.db.requests| && !Terminal(s.db.requests[rid].status)
    ensures HasActiveToken(s.db, caller) && PolicyFor(s.db, caller) != EMPTY_POLICY
  {
  }

  lemma TerminalStays(states: seq<System>, steps: seq<Step>, j: nat, k: nat, rid: nat)
    requires Run(states, steps) && Inv(states[0]) && j <= k < |states|
    requires rid < |states[j].db.requests| ==> Terminal(states[j].db.requests[rid].status)
    ensures rid < |states[j].db.requests| ==>
              rid < |states[k].db.requests| && Terminal(states[k].db.requests[rid].status)
  {
    hide Next;
    RunEvolves(states, steps, j, k);
    assert rid < |states[j].db.requests| ==> RowEvolves(states[j].db.requests[rid], states[k].db.requests[rid]);
  }

  // ---- coupled rows -------------------------------------------------------------------------------

  /** In every reachable state: a pending request has exactly one approval, awaiting, with its digest and its
      payload kept; approvals and requests agree; a terminal request keeps no payload. */
  lemma CoupledRows(states: seq<System>, steps: seq<Step>, k: nat, rid: nat)
    requires Run(states, steps) && Inv(states[0]) && k < |states| && rid < |states[k].db.requests|
    ensures var db := states[k].db; var row := db.requests[rid];
            && (row.status == PendingApproval ==>
                  exists a: nat :: a < |db.approvals| && db.approvals[a].request == rid
                    && db.approvals[a].status == Awaiting && db.approvals[a].digest == row.bound.digest
                    && (forall b | 0 <= b < |db.approvals| && db.approvals[b].request == rid :: b == a)
                    && row.arguments == Some(row.bound.digest.action.arguments)
                    && row.action == Some(row.bound.digest.action))
            && (forall a | 0 <= a < |db.approvals| && db.approvals[a].request == rid ::
                  Coupled(db.approvals[a].status, row.status))
            && (Terminal(row.status) ==> row.arguments == None && row.action == None)
  {
    RunInv(states, steps, k);
    var db := states[k].db;
    var row := db.requests[rid];
    assert RowOk(db, row);
    assert forall a | 0 <= a < |db.approvals| :: ApprovalOk(db, db.approvals[a]);
    if row.status == PendingApproval {
      var a := ApprovalIndex(db.approvals, rid);
      assert HasApproval(db, rid) && ApprovalOk(db, db.approvals[a]);
      forall b | 0 <= b < |db.approvals| && db.approvals[b].request == rid ensures b == a {
        TheApproval(db, b);
      }
    }
  }

  // ---- the broker deadline ------------------------------------------------------------------------

  ghost predicate Answers(db: Db, db': Db, a: nat) {
    && a < |db.approvals| && a < |db'.approvals| && db'.approvals[a].status != db.approvals[a].status
    && db'.approvals[a].status in {Approved, Rejected}
  }

  ghost predicate InTime(db': Db, app: Approval) {
    app.request < |db'.requests| && db'.requests[app.request].updatedAt < app.expiresAt
  }

  lemma FinishedInTime(db: Db, rid: nat, ending: Ending, state: Option<SurfaceState>, now: Time,
                       deadlineOnly: bool, a: nat)
    requires DbInv(db) && Answers(db, FinishPending(db, rid, ending, state, now, deadlineOnly).0, a)
    ensures ending.answer in {Approved, Rejected}
    ensures InTime(FinishPending(db, rid, ending, state, now, deadlineOnly).0, db.approvals[a])
  {
  }

  lemma ApprovedInTime(db: Db, rid: nat, generation: Option<string>, state: SurfaceState, now: Time,
                       who: Option<Principal>, a: nat)
    requires DbInv(db) && Answers(db, ClaimApproval(db, rid, generation, state, now, who).0, a)
    ensures InTime(ClaimApproval(db, rid, generation, state, now, who).0, db.approvals[a])
  {
  }

  /** The operator's transactions never record a human answer. */
  lemma OperatorNeverAnswers(s: System, admin: Admin, now: Time, a: nat)
    requires Inv(s) && OperateNext(s, admin, now).Some?
    ensures !Answers(s.db, OperateNext(s, admin, now).value.db, a)
  {
    var db' := OperateNext(s, admin, now).value.db;
    if Answers(s.db, db', a) && admin.Withdraw? {
      FinishedInTime(s.db, admin.rid, Ending(Expired, Cancelled, None), None, now, false, a);
    } else if Answers(s.db, db', a) && admin.SweepRow? {
      FinishedInTime(s.db, admin.rid, TIMEOUT, None, now, true, a);
    }
  }

  /** No step records an approval or a rejection except strictly before the deadline, by the reading it
      records with the request. */
  lemma DeadlineWins(s: System, step: Step, s': System, a: nat)
    requires Inv(s) && Answers(s.db, s'.db, a)
    requires Next(s, step) == Some(s')
    ensures InTime(s'.db, s.db.approvals[a])
  {
    hide Inv, OperateNext, SubmitNext, JudgeNext, RefuseNext, OpenNext, RecordNext, ParkNext, LookupNext,
      ClaimDirectNext, DispatchNext, FinishNext, PollNext, ReadApprovalNext, AskNext, RecheckNext, WeighNext,
      ClaimReviewedNext, CloseNext;
    if step.Operate? {
      OperatorNeverAnswers(s, step.admin, step.now, a);
    } else if step.Close? {
      ClosedInTime(s, step.w, step.now, a);
    } else if step.ClaimReviewed? {
      GrantedInTime(s, step.w, step.now, a);
    } else if step.ClaimDirect? {
      DirectAnswersNothing(s, step.w, step.now);
    } else {
      WorkerPlain(s, step, s');
    }
  }

  lemma ClosedInTime(s: System, w: nat, now: Time, a: nat)
    requires Inv(s) && CloseNext(s, w, now).Some? && Answers(s.db, CloseNext(s, w, now).value.db, a)
    ensures InTime(CloseNext(s, w, now).value.db, s.db.approvals[a])
  {
  }

  lemma GrantedInTime(s: System, w: nat, now: Time, a: nat)
    requires Inv(s) && ClaimReviewedNext(s, w, now).Some? && Answers(s.db, ClaimReviewedNext(s, w, now).value.db, a)
    ensures InTime(ClaimReviewedNext(s, w, now).value.db, s.db.approvals[a])
  {
    var wk := s.workers[w];
    ApprovedInTime(s.db, wk.watch.rid, Generation(wk.current), wk.state, Later(wk.watch.now, now), wk.watch.who, a);
  }

  lemma DirectAnswersNothing(s: System, w: nat, now: Time)
    requires ClaimDirectNext(s, w, now).Some?
    ensures ClaimDirectNext(s, w, now).value.db.approvals == s.db.approvals
  {
  }
}
