/** broker/request_lifecycle.py as a state machine. Each handler is a worker whose program counter names the
    next database transaction or outside call it will make; a step runs exactly one of them, and the steps of
    all workers, of the operator's tools and of crashes interleave freely.

    Whatever the environment decides (a catalog lookup, the surface's answer, the wall clock, a crash) is a
    parameter of the step, so a property of every step sequence holds for every environment. */
module Protocol {
  import opened Wrappers
  import opened PolicyRules
  import opened BrokerDb

  /** A catalog entry as the registry resolves it at one moment. */
  datatype ToolOp = ToolOp(tool: string, op: string, generation: string, rest: bool)

  /** What a submission holds about the row it created. */
  datatype Job = Job(rid: nat, who: Principal, tool: string, op: string, arguments: string, digest: Digest,
                     found: Option<ToolOp>)

  /** What a status poll holds about the pending row and the approval row it read. */
  datatype Watch = Watch(rid: nat, who: Option<Principal>, now: Time, row: Request)

  datatype Worker =
    // a submission, which created its row
    | Deciding(job: Job)
    | Refusing(rid: nat, status: Status, error: Option<string>)
    | Opening(rid: nat, digest: Digest)
    | Recording(rid: nat, digest: Digest, ref: string)
    | Parking(rid: nat)
    | Checking(job: Job)
    | Claiming(job: Job, current: Option<ToolOp>)
    // a status poll
    | Reading(watch: Watch)
    | Asking(watch: Watch, a: nat, app: Approval)
    | Hearing(watch: Watch, a: nat, ref: string, state: SurfaceState)
    | Weighing(watch: Watch, a: nat, ref: string, state: SurfaceState, at: Time, pending: bool)
    | Judging(watch: Watch, a: nat, ref: string, state: SurfaceState)
    | Granting(watch: Watch, a: nat, ref: string, state: SurfaceState, current: Option<ToolOp>)
    | Closing(rid: nat, ending: Ending, answer: Option<SurfaceState>, now: Time, deadlineOnly: bool)
    // either, once it holds the claim
    | Running(rid: nat, toolOp: ToolOp, arguments: string)
    | Finishing(rid: nat)

  /** The ghost record of what left the broker. */
  datatype Event =
    | Claimed(rid: nat)
    | Dispatched(rid: nat, tool: string, op: string, generation: string, arguments: string)
    | Heard(ref: string, outcome: Verdict)

  datatype System = System(db: Db, workers: map<nat, Worker>, history: seq<Event>)

  datatype Reply = Returned(result: string) | Refused | Unclear

  /** Only a refused connection is evidence of no effect; every other failure leaves the outcome unknown. */
  function Outcome(reply: Reply): (Status, Option<string>) {
    match reply
    case Returned(_) => (Completed, None)
    case Refused => (Failed, Some("tool_unreachable"))
    case Unclear => (Unknown, Some("execution_outcome_unknown"))
  }

  datatype Admin =
    | NewCaller(name: string)
    | NewToken(caller: nat, hash: string)
    | DropCaller(name: string)
    | DropTokens(hashes: set<string>)
    | NewPolicy(caller: nat, policy: Policy)
    | SwapPolicy(caller: nat, before: Policy, after: Policy)
    | Withdraw(rid: nat)
    | SweepRow(rid: nat)
    | PruneAll
    | ReconcileAll

  datatype Step =
    | Submit(w: nat, who: Principal, tool: string, op: string, arguments: string, reason: Option<string>,
             found: Option<ToolOp>, key: Option<string>, nonce: string, now: Time)
    | Judge(w: nat, envelopeOk: bool)
    | Refuse(w: nat, now: Time)
    | Open(w: nat, ref: Option<string>)
    | Record(w: nat, expiresAt: Time)
    | Park(w: nat, now: Time)
    | Lookup(w: nat, current: Option<ToolOp>)
    | ClaimDirect(w: nat, now: Time)
    | Dispatch(w: nat)
    | Finish(w: nat, reply: Reply, now: Time)
    | Poll(w: nat, rid: nat, poller: Option<Principal>, now: Time)
    | ReadApproval(w: nat)
    | Ask(w: nat, state: SurfaceState)
    | Recheck(w: nat, now: Time)
    | Weigh(w: nat)
    | ClaimReviewed(w: nat, now: Time)
    | Close(w: nat, now: Time)
    | Crash(w: nat)
    | Operate(admin: Admin, now: Time)

  function Later(a: Time, b: Time): Time {
    if a < b then b else a
  }

  /** Worker w moves on, or ends. */
  function Move(s: System, w: nat, next: Option<Worker>): System {
    s.(workers := if next.Some? then s.workers[w := next.value] else s.workers - {w})
  }

  predicate Resolves(found: Option<ToolOp>, tool: string, op: string) {
    found.Some? ==> found.value.tool == tool && found.value.op == op
  }

  // ---- the submission -----------------------------------------------------------------------------

  /** A retry, a conflict or a refusal ends here; only the creator of a row goes on. */
  function SubmitNext(s: System, step: Step): Option<System>
    requires step.Submit?
  {
    if step.w in s.workers || !Resolves(step.found, step.tool, step.op) then None
    else if step.found.None? && step.key.None? then Some(s)
    else
      var generation := if step.found.Some? then step.found.value.generation else "";
      var (db, answer) := Reserve(s.db, step.who, step.tool, step.op, step.arguments, step.reason, generation,
                                  step.key, step.nonce, step.now);
      if answer.Receipt? && answer.created && answer.id < |db.requests| then
        var job := Job(answer.id, step.who, step.tool, step.op, step.arguments,
                       db.requests[answer.id].bound.digest, step.found);
        Some(Move(s.(db := db), step.w, Some(Deciding(job))))
      else Some(s.(db := db))
  }

  /** Policy decides on the stored policy of this moment. */
  function Judged(db: Db, job: Job, envelopeOk: bool): Worker {
    if job.found.None? then Refusing(job.rid, NotFound, None)
    else
      match Decide(PolicyFor(db, job.who.id), job.tool, job.op)
      case Deny => Refusing(job.rid, Denied, None)
      case effect =>
        if job.found.value.rest && !envelopeOk then Refusing(job.rid, Invalid, Some("invalid_envelope"))
        else if effect == Review then Opening(job.rid, job.digest)
        else Checking(job)
  }

  function JudgeNext(s: System, w: nat, envelopeOk: bool): Option<System> {
    if w !in s.workers || !s.workers[w].Deciding? then None
    else Some(Move(s, w, Some(Judged(s.db, s.workers[w].job, envelopeOk))))
  }

  function RefuseNext(s: System, w: nat, now: Time): Option<System> {
    if w !in s.workers || !s.workers[w].Refusing? then None
    else
      var wk := s.workers[w];
      Some(Move(s.(db := UpdateRequest(s.db, wk.rid, wk.status, wk.error, None, now)), w, None))
  }

  /** No surface, or a surface that fails to open the card, fails the request. */
  function OpenNext(s: System, w: nat, ref: Option<string>): Option<System> {
    if w !in s.workers || !s.workers[w].Opening? then None
    else
      var wk := s.workers[w];
      Some(Move(s, w, Some(if ref.None? then Refusing(wk.rid, Failed, Some("approval_unavailable"))
                           else Recording(wk.rid, wk.digest, ref.value))))
  }

  function RecordNext(s: System, w: nat, expiresAt: Time): Option<System> {
    if w !in s.workers || !s.workers[w].Recording? then None
    else
      var wk := s.workers[w];
      match CreateApproval(s.db, wk.rid, wk.ref, expiresAt, wk.digest)
      case None => Some(Move(s, w, None))
      case Some(db) => Some(Move(s.(db := db), w, Some(Parking(wk.rid))))
  }

  function ParkNext(s: System, w: nat, now: Time): Option<System> {
    if w !in s.workers || !s.workers[w].Parking? then None
    else Some(Move(s.(db := UpdateRequest(s.db, s.workers[w].rid, PendingApproval, None, None, now)), w, None))
  }

  /** The registry is asked again right before either claim. */
  function LookupNext(s: System, w: nat, current: Option<ToolOp>): Option<System> {
    if w !in s.workers then None
    else match s.workers[w]
      case Checking(job) =>
        if !Resolves(current, job.tool, job.op) then None
        else Some(Move(s, w, Some(Claiming(job, current))))
      case Judging(watch, a, ref, state) =>
        if !Resolves(current, watch.row.bound.tool, watch.row.bound.op) then None
        else Some(Move(s, w, Some(Granting(watch, a, ref, state, current))))
      case _ => None
  }

  function Generation(current: Option<ToolOp>): Option<string> {
    if current.Some? then Some(current.value.generation) else None
  }

  function ClaimDirectNext(s: System, w: nat, now: Time): Option<System> {
    if w !in s.workers || !s.workers[w].Claiming? then None
    else
      var wk := s.workers[w];
      var (db, claimed) := ClaimReceived(s.db, wk.job.rid, Generation(wk.current), Some(wk.job.who),
                                         wk.job.digest, now);
      if claimed && wk.current.Some? then
        Some(Move(s.(db := db, history := s.history + [Claimed(wk.job.rid)]), w,
                  Some(Running(wk.job.rid, wk.current.value, wk.job.arguments))))
      else Some(Move(s.(db := db), w, None))
  }

  // ---- execution ----------------------------------------------------------------------------------

  /** The row is read once more; only an executing one is dispatched. */
  function DispatchNext(s: System, w: nat): Option<System> {
    if w !in s.workers || !s.workers[w].Running? then None
    else
      var wk := s.workers[w];
      if wk.rid >= |s.db.requests| || s.db.requests[wk.rid].status != Executing then Some(Move(s, w, None))
      else
        var sent := Dispatched(wk.rid, wk.toolOp.tool, wk.toolOp.op, wk.toolOp.generation, wk.arguments);
        Some(Move(s.(history := s.history + [sent]), w, Some(Finishing(wk.rid))))
  }

  function FinishNext(s: System, w: nat, reply: Reply, now: Time): Option<System> {
    if w !in s.workers || !s.workers[w].Finishing? then None
    else
      var (status, error) := Outcome(reply);
      var result := if reply.Returned? then Some(reply.result) else None;
      Some(Move(s.(db := UpdateRequest(s.db, s.workers[w].rid, status, error, result, now)), w, None))
  }

  // ---- the status poll ----------------------------------------------------------------------------

  function PollNext(s: System, step: Step): Option<System>
    requires step.Poll?
  {
    if step.w in s.workers then None
    else if !StillPending(s.db, step.rid) then Some(s)
    else Some(Move(s, step.w, Some(Reading(Watch(step.rid, step.poller, step.now, s.db.requests[step.rid])))))
  }

  const TIMEOUT := Ending(Expired, Lapsed, None)

  function ReadApprovalNext(s: System, w: nat): Option<System> {
    if w !in s.workers || !s.workers[w].Reading? then None
    else
      var watch := s.workers[w].watch;
      var a := ApprovalIndex(s.db.approvals, watch.rid);
      var next :=
        if a >= |s.db.approvals| then None
        else if watch.now >= s.db.approvals[a].expiresAt then Some(Closing(watch.rid, TIMEOUT, None, watch.now, true))
        else Some(Asking(watch, a, s.db.approvals[a]));
      Some(Move(s, w, next))
  }

  function AskNext(s: System, w: nat, state: SurfaceState): Option<System> {
    if w !in s.workers || !s.workers[w].Asking? then None
    else
      var wk := s.workers[w];
      Some(Move(s.(history := s.history + [Heard(wk.app.ref, state.outcome)]), w,
                Some(Hearing(wk.watch, wk.a, wk.app.ref, state))))
  }

  predicate StillPending(db: Db, rid: nat) {
    rid < |db.requests| && db.requests[rid].status == PendingApproval
  }

  /** After the surface answered the clock is read again, then the request, then its approval. */
  function RecheckNext(s: System, w: nat, now: Time): Option<System> {
    if w !in s.workers || !s.workers[w].Hearing? then None
    else
      var wk := s.workers[w];
      var rid := wk.watch.rid;
      Some(Move(s, w, Some(Weighing(wk.watch, wk.a, wk.ref, wk.state, Later(wk.watch.now, now),
                                    StillPending(s.db, rid)))))
  }

  /** What a poll does about the answer, given whether the request was still pending and the approval as it is. */
  function Weighed(db: Db, watch: Watch, a: nat, ref: string, state: SurfaceState, at: Time, pending: bool)
    : Option<Worker>
  {
    var rid := watch.rid;
    var b := ApprovalIndex(db.approvals, rid);
    if !pending || b >= |db.approvals| || db.approvals[b].status != Awaiting then None
    else if at >= db.approvals[b].expiresAt then Some(Closing(rid, TIMEOUT, None, at, true))
    else match state.outcome
      case Yes => Some(Judging(watch, a, ref, state))
      case No => Some(Closing(rid, Ending(Denied, Rejected, Some("approval_rejected")), Some(state), watch.now, false))
      case TimedOut => Some(Closing(rid, Ending(Expired, Lapsed, None), None, watch.now, false))
      case Withdrawn => Some(Closing(rid, Ending(Expired, Cancelled, None), None, watch.now, false))
      case Undecided => None
  }

  function WeighNext(s: System, w: nat): Option<System> {
    if w !in s.workers || !s.workers[w].Weighing? then None
    else
      var wk := s.workers[w];
      Some(Move(s, w, Weighed(s.db, wk.watch, wk.a, wk.ref, wk.state, wk.at, wk.pending)))
  }

  function ClaimReviewedNext(s: System, w: nat, now: Time): Option<System> {
    if w !in s.workers || !s.workers[w].Granting? then None
    else
      var wk := s.workers[w];
      var (db, claimed) := ClaimApproval(s.db, wk.watch.rid, Generation(wk.current), wk.state,
                                         Later(wk.watch.now, now), wk.watch.who);
      if claimed && wk.current.Some? then
        Some(Move(s.(db := db, history := s.history + [Claimed(wk.watch.rid)]), w,
                  Some(Running(wk.watch.rid, wk.current.value, wk.watch.row.arguments.GetOr("{}")))))
      else Some(Move(s.(db := db), w, None))
  }

  function CloseNext(s: System, w: nat, now: Time): Option<System> {
    if w !in s.workers || !s.workers[w].Closing? then None
    else
      var wk := s.workers[w];
      var at := if wk.deadlineOnly then wk.now else Later(wk.now, now);
      Some(Move(s.(db := FinishPending(s.db, wk.rid, wk.ending, wk.answer, at, wk.deadlineOnly).0), w, None))
  }

  // ---- the operator -------------------------------------------------------------------------------

  /** Sweeps, cancellations and every admin mutation are transactions of their own, from any process.
      Offline reconciliation alone demands that no handler is in flight. */
  function Administer(s: System, admin: Admin, now: Time): Option<Db> {
    match admin
    case NewCaller(name) =>
      (match AddCaller(s.db, name)
       case None => None
       case Some((db, _)) => Some(db))
    case NewToken(caller, hash) => AddToken(s.db, caller, hash)
    case DropCaller(name) => Some(RevokeCaller(s.db, name, now))
    case DropTokens(hashes) => Some(RevokeTokens(s.db, hashes, now))
    case NewPolicy(caller, policy) =>
      if caller < |s.db.callers| then Some(WritePolicy(s.db, caller, policy, now)) else None
    case SwapPolicy(caller, before, after) => Some(CompareAndSetPolicy(s.db, caller, before, after, now).0)
    case Withdraw(rid) => Some(FinishPending(s.db, rid, Ending(Expired, Cancelled, None), None, now, false).0)
    case SweepRow(rid) => Some(FinishPending(s.db, rid, TIMEOUT, None, now, true).0)
    case PruneAll => Some(Prune(s.db, now))
    case ReconcileAll => if s.workers == map[] then Some(Reconcile(s.db, now)) else None
  }

  function OperateNext(s: System, admin: Admin, now: Time): Option<System> {
    match Administer(s, admin, now)
    case None => None
    case Some(db) => Some(s.(db := db))
  }

  // ---- runs ---------------------------------------------------------------------------------------

  function Next(s: System, step: Step): Option<System> {
    match step
    case Submit(_, _, _, _, _, _, _, _, _, _) => SubmitNext(s, step)
    case Judge(w, ok) => JudgeNext(s, w, ok)
    case Refuse(w, now) => RefuseNext(s, w, now)
    case Open(w, ref) => OpenNext(s, w, ref)
    case Record(w, expiresAt) => RecordNext(s, w, expiresAt)
    case Park(w, now) => ParkNext(s, w, now)
    case Lookup(w, current) => LookupNext(s, w, current)
    case ClaimDirect(w, now) => ClaimDirectNext(s, w, now)
    case Dispatch(w) => DispatchNext(s, w)
    case Finish(w, reply, now) => FinishNext(s, w, reply, now)
    case Poll(_, _, _, _) => PollNext(s, step)
    case ReadApproval(w) => ReadApprovalNext(s, w)
    case Ask(w, state) => AskNext(s, w, state)
    case Recheck(w, now) => RecheckNext(s, w, now)
    case Weigh(w) => WeighNext(s, w)
    case ClaimReviewed(w, now) => ClaimReviewedNext(s, w, now)
    case Close(w, now) => CloseNext(s, w, now)
    case Crash(w) => Some(Move(s, w, None))
    case Operate(admin, now) => OperateNext(s, admin, now)
  }

  /** A finite run: the state after each of the given steps, every one of them enabled. */
  predicate Run(states: seq<System>, steps: seq<Step>) {
    && |states| == |steps| + 1
    && forall i | 0 <= i < |steps| :: Next(states[i], steps[i]) == Some(states[i + 1])
  }

  const START := System(EMPTY_DB, map[], [])
}
