/** One handler at a time (broker/request_lifecycle.py): the submission and the status poll, each run to its end
    on the store with nothing in between. They are proved to take exactly the steps of module Protocol, and what
    each ends with is stated outright. */
module Lifecycle {
  import opened Wrappers
  import opened PythonText
  import opened PolicyRules
  import opened BrokerDb
  import opened BrokerInvariant
  import opened BrokerStore
  import opened Protocol
  import opened ProtocolInvariant
  import BrokerOperations

  /** What a handler meets on its way: catalog lookups, the surface's answers, the tool's reply, and the clock
      at its first transaction and at its last. */
  datatype Env = Env(envelopeOk: bool, ref: Option<string>, expiresAt: Time, current: Option<ToolOp>,
                     state: SurfaceState, reply: Reply, polled: Time, early: Time, late: Time)

  /** The next step of a worker in such surroundings. */
  function Turn(w: nat, wk: Worker, env: Env): Step {
    match wk
    case Deciding(_) => Judge(w, env.envelopeOk)
    case Refusing(_, _, _) => Refuse(w, env.early)
    case Opening(_, _) => Open(w, env.ref)
    case Recording(_, _, _) => Record(w, env.expiresAt)
    case Parking(_) => Park(w, env.early)
    case Checking(_) => Lookup(w, env.current)
    case Claiming(_, _) => ClaimDirect(w, env.early)
    case Reading(_) => ReadApproval(w)
    case Asking(_, _, _) => Ask(w, env.state)
    case Hearing(_, _, _, _) => Recheck(w, env.polled)
    case Weighing(_, _, _, _, _, _) => Weigh(w)
    case Judging(_, _, _, _) => Lookup(w, env.current)
    case Granting(_, _, _, _, _) => ClaimReviewed(w, env.early)
    case Closing(_, _, _, _, _) => Close(w, env.early)
    case Running(_, _, _) => Dispatch(w)
    case Finishing(_) => Finish(w, env.reply, env.late)
  }

  /** A worker run for at most n steps; no handler takes more than eight. */
  function Driven(s: System, w: nat, env: Env, n: nat): System
    decreases n
  {
    if n == 0 || w !in s.workers then s
    else match Next(s, Turn(w, s.workers[w], env))
      case None => s
      case Some(next) => Driven(next, w, env, n - 1)
  }

  /** A system with one worker, or with none. */
  function Alone(db: Db, wk: Option<Worker>, history: seq<Event>): System {
    System(db, if wk.Some? then map[0 := wk.value] else map[], history)
  }

  lemma AloneMoves(db: Db, wk: Worker, history: seq<Event>, next: Option<Worker>)
    ensures Move(Alone(db, Some(wk), history), 0, next) == Alone(db, next, history)
  {
  }

  lemma DrivenOn(db: Db, wk: Worker, history: seq<Event>, env: Env, n: nat, s': System)
    requires n > 0 && Next(Alone(db, Some(wk), history), Turn(0, wk, env)) == Some(s')
    ensures Driven(Alone(db, Some(wk), history), 0, env, n) == Driven(s', 0, env, n - 1)
  {
  }

  lemma DrivenDone(db: Db, history: seq<Event>, env: Env, n: nat)
    ensures Driven(Alone(db, None, history), 0, env, n) == Alone(db, None, history)
  {
  }

  // ---- execution ----------------------------------------------------------------------------------

  lemma DispatchTurn(db: Db, rid: nat, toolOp: ToolOp, arguments: string, history: seq<Event>, env: Env)
    ensures Next(Alone(db, Some(Running(rid, toolOp, arguments)), history), Dispatch(0))
         == Some(if rid < |db.requests| && db.requests[rid].status == Executing
                 then Alone(db, Some(Finishing(rid)),
                            history + [Dispatched(rid, toolOp.tool, toolOp.op, toolOp.generation, arguments)])
                 else Alone(db, None, history))
  {
    AloneMoves(db, Running(rid, toolOp, arguments), history, None);
    AloneMoves(db, Running(rid, toolOp, arguments),
               history + [Dispatched(rid, toolOp.tool, toolOp.op, toolOp.generation, arguments)], Some(Finishing(rid)));
  }

  function ResultOf(reply: Reply): Option<string> {
    if reply.Returned? then Some(reply.result) else None
  }

  lemma FinishTurn(db: Db, rid: nat, history: seq<Event>, env: Env)
    ensures Next(Alone(db, Some(Finishing(rid)), history), Finish(0, env.reply, env.late))
         == Some(Alone(UpdateRequest(db, rid, Outcome(env.reply).0, Outcome(env.reply).1, ResultOf(env.reply),
                                     env.late), None, history))
  {
  }

  /** The tables and the history after a claimed request was executed. */
  function Executed(db: Db, rid: nat, toolOp: ToolOp, arguments: string, env: Env, history: seq<Event>)
    : (Db, seq<Event>)
  {
    if rid >= |db.requests| || db.requests[rid].status != Executing then (db, history)
    else
      (UpdateRequest(db, rid, Outcome(env.reply).0, Outcome(env.reply).1, ResultOf(env.reply), env.late),
       history + [Dispatched(rid, toolOp.tool, toolOp.op, toolOp.generation, arguments)])
  }

  /** Dispatches a claimed request and records how that ended; only an executing row is dispatched. */
  method Execute(store: Store, rid: nat, toolOp: ToolOp, arguments: string, env: Env, ghost history: seq<Event>,
                 ghost n: nat)
    returns (ghost events: seq<Event>)
    requires n >= 2
    modifies store
    ensures Driven(Alone(old(store.Tables()), Some(Running(rid, toolOp, arguments)), history), 0, env, n)
         == Alone(store.Tables(), None, events)
    ensures (store.Tables(), events) == Executed(old(store.Tables()), rid, toolOp, arguments, env, history)
  {
    hide Next;
    ghost var db := store.Tables();
    DispatchTurn(db, rid, toolOp, arguments, history, env);
    if rid >= |store.requests| || store.requests[rid].status != Executing {
      events := history;
      DrivenOn(db, Running(rid, toolOp, arguments), history, env, n, Alone(db, None, history));
      return;
    }
    events := history + [Dispatched(rid, toolOp.tool, toolOp.op, toolOp.generation, arguments)];
    DrivenOn(db, Running(rid, toolOp, arguments), history, env, n, Alone(db, Some(Finishing(rid)), events));
    FinishTurn(db, rid, events, env);
    var (status, error) := Outcome(env.reply);
    store.UpdateRequest(rid, status, error, ResultOf(env.reply), env.late);
    DrivenOn(db, Finishing(rid), events, env, n - 1, Alone(store.Tables(), None, events));
  }

  // ---- the submission -----------------------------------------------------------------------------

  lemma RefuseTurn(db: Db, rid: nat, status: Status, error: Option<string>, history: seq<Event>, env: Env)
    ensures Next(Alone(db, Some(Refusing(rid, status, error)), history), Refuse(0, env.early))
         == Some(Alone(UpdateRequest(db, rid, status, error, None, env.early), None, history))
  {
  }

  method Reject(store: Store, rid: nat, status: Status, error: Option<string>, env: Env, ghost history: seq<Event>,
                ghost n: nat)
    requires n >= 1
    modifies store
    ensures Driven(Alone(old(store.Tables()), Some(Refusing(rid, status, error)), history), 0, env, n)
         == Alone(store.Tables(), None, history)
    ensures store.Tables() == UpdateRequest(old(store.Tables()), rid, status, error, None, env.early)
  {
    hide Next;
    ghost var db := store.Tables();
    RefuseTurn(db, rid, status, error, history, env);
    store.UpdateRequest(rid, status, error, None, env.early);
    DrivenOn(db, Refusing(rid, status, error), history, env, n, Alone(store.Tables(), None, history));
  }

  lemma OpenTurns(db: Db, rid: nat, digest: Digest, history: seq<Event>, env: Env)
    requires rid < |db.requests|
    ensures Next(Alone(db, Some(Opening(rid, digest)), history), Open(0, env.ref))
         == Some(Alone(db, Some(if env.ref.None? then Refusing(rid, Failed, Some("approval_unavailable"))
                                else Recording(rid, digest, env.ref.value)), history))
    ensures env.ref.Some? ==>
              var db' := CreateApproval(db, rid, env.ref.value, env.expiresAt, digest).value;
              && Next(Alone(db, Some(Recording(rid, digest, env.ref.value)), history), Record(0, env.expiresAt))
              == Some(Alone(db', Some(Parking(rid)), history))
              && Next(Alone(db', Some(Parking(rid)), history), Park(0, env.early))
              == Some(Alone(UpdateRequest(db', rid, PendingApproval, None, None, env.early), None, history))
  {
    if env.ref.None? {
      AloneMoves(db, Opening(rid, digest), history, Some(Refusing(rid, Failed, Some("approval_unavailable"))));
    } else {
      var db' := CreateApproval(db, rid, env.ref.value, env.expiresAt, digest).value;
      AloneMoves(db, Opening(rid, digest), history, Some(Recording(rid, digest, env.ref.value)));
      AloneMoves(db', Recording(rid, digest, env.ref.value), history, Some(Parking(rid)));
      AloneMoves(UpdateRequest(db', rid, PendingApproval, None, None, env.early), Parking(rid), history, None);
    }
  }

  function Opened(db: Db, rid: nat, digest: Digest, env: Env): Db
    requires rid < |db.requests|
  {
    if env.ref.None? then UpdateRequest(db, rid, Failed, Some("approval_unavailable"), None, env.early)
    else
      UpdateRequest(CreateApproval(db, rid, env.ref.value, env.expiresAt, digest).value, rid, PendingApproval, None,
                    None, env.early)
  }

  method OpenApproval(store: Store, rid: nat, digest: Digest, env: Env, ghost history: seq<Event>, ghost n: nat)
    requires rid < |store.requests| && n >= 3
    modifies store
    ensures Driven(Alone(old(store.Tables()), Some(Opening(rid, digest)), history), 0, env, n)
         == Alone(store.Tables(), None, history)
    ensures store.Tables() == Opened(old(store.Tables()), rid, digest, env)
  {
    hide Next;
    ghost var db := store.Tables();
    OpenTurns(db, rid, digest, history, env);
    if env.ref.None? {
      DrivenOn(db, Opening(rid, digest), history, env, n,
               Alone(db, Some(Refusing(rid, Failed, Some("approval_unavailable"))), history));
      Reject(store, rid, Failed, Some("approval_unavailable"), env, history, n - 1);
      return;
    }
    var ref := env.ref.value;
    DrivenOn(db, Opening(rid, digest), history, env, n, Alone(db, Some(Recording(rid, digest, ref)), history));
    var _ := store.CreateApproval(rid, ref, env.expiresAt, digest);
    ghost var recorded := store.Tables();
    DrivenOn(db, Recording(rid, digest, ref), history, env, n - 1, Alone(recorded, Some(Parking(rid)), history));
    store.UpdateRequest(rid, PendingApproval, None, None, env.early);
    DrivenOn(recorded, Parking(rid), history, env, n - 2, Alone(store.Tables(), None, history));
  }

  function ClaimedDirectly(db: Db, job: Job, env: Env): (Db, bool) {
    ClaimReceived(db, job.rid, Generation(env.current), Some(job.who), job.digest, env.early)
  }

  lemma ClaimTurns(db: Db, job: Job, history: seq<Event>, env: Env)
    requires Resolves(env.current, job.tool, job.op)
    ensures Next(Alone(db, Some(Checking(job)), history), Lookup(0, env.current))
         == Some(Alone(db, Some(Claiming(job, env.current)), history))
    ensures var (db', claimed) := ClaimedDirectly(db, job, env);
            && Next(Alone(db, Some(Claiming(job, env.current)), history), ClaimDirect(0, env.early))
            == Some(if claimed && env.current.Some?
                    then Alone(db', Some(Running(job.rid, env.current.value, job.arguments)),
                               history + [Claimed(job.rid)])
                    else Alone(db', None, history))
  {
    var db' := ClaimedDirectly(db, job, env).0;
    AloneMoves(db, Checking(job), history, Some(Claiming(job, env.current)));
    AloneMoves(db', Claiming(job, env.current), history, None);
    if env.current.Some? {
      AloneMoves(db', Claiming(job, env.current), history + [Claimed(job.rid)],
                 Some(Running(job.rid, env.current.value, job.arguments)));
    }
  }

  /** The tables and the history after an allowed submission. */
  function ClaimedAndExecuted(db: Db, job: Job, env: Env, history: seq<Event>): (Db, seq<Event>) {
    var (db', claimed) := ClaimedDirectly(db, job, env);
    if claimed && env.current.Some?
    then Executed(db', job.rid, env.current.value, job.arguments, env, history + [Claimed(job.rid)])
    else (db', history)
  }

  method ClaimDirectly(store: Store, job: Job, env: Env, ghost history: seq<Event>, ghost n: nat)
    returns (ghost events: seq<Event>)
    requires Resolves(env.current, job.tool, job.op) && n >= 4
    modifies store
    ensures Driven(Alone(old(store.Tables()), Some(Checking(job)), history), 0, env, n)
         == Alone(store.Tables(), None, events)
    ensures (store.Tables(), events) == ClaimedAndExecuted(old(store.Tables()), job, env, history)
  {
    hide Next, BrokerDb.ClaimReceived, Executed;
    ghost var db := store.Tables();
    ClaimTurns(db, job, history, env);
    DrivenOn(db, Checking(job), history, env, n, Alone(db, Some(Claiming(job, env.current)), history));
    var claimed := store.ClaimReceived(job.rid, Generation(env.current), Some(job.who), job.digest, env.early);
    ghost var mid := store.Tables();
    if claimed && env.current.Some? {
      events := history + [Claimed(job.rid)];
      DrivenOn(db, Claiming(job, env.current), history, env, n - 1,
               Alone(mid, Some(Running(job.rid, env.current.value, job.arguments)), events));
      events := Execute(store, job.rid, env.current.value, job.arguments, env, events, n - 2);
    } else {
      events := history;
      DrivenOn(db, Claiming(job, env.current), history, env, n - 1, Alone(mid, None, history));
    }
  }

  lemma JudgeTurn(db: Db, job: Job, history: seq<Event>, env: Env)
    ensures Next(Alone(db, Some(Deciding(job)), history), Judge(0, env.envelopeOk))
         == Some(Alone(db, Some(Judged(db, job, env.envelopeOk)), history))
  {
    AloneMoves(db, Deciding(job), history, Some(Judged(db, job, env.envelopeOk)));
  }

  /** The tables and the history after the creator of a row has run to its end. */
  function Decided(db: Db, job: Job, env: Env): (Db, seq<Event>)
    requires job.rid < |db.requests|
  {
    match Judged(db, job, env.envelopeOk)
    case Refusing(rid, status, error) => (UpdateRequest(db, rid, status, error, None, env.early), [])
    case Opening(rid, digest) => (Opened(db, job.rid, digest, env), [])
    case _ => ClaimedAndExecuted(db, job, env, [])
  }

  /** What the creator of a received row does with it. */
  method Proceed(store: Store, job: Job, env: Env, ghost n: nat) returns (ghost events: seq<Event>)
    requires job.rid < |store.requests| && Resolves(env.current, job.tool, job.op) && n >= 5
    modifies store
    ensures Driven(Alone(old(store.Tables()), Some(Deciding(job)), []), 0, env, n)
         == Alone(store.Tables(), None, events)
    ensures (store.Tables(), events) == Decided(old(store.Tables()), job, env)
  {
    hide Next, Opened, ClaimedAndExecuted, BrokerDb.UpdateRequest;
    ghost var db := store.Tables();
    JudgeTurn(db, job, [], env);
    DrivenOn(db, Deciding(job), [], env, n, Alone(db, Some(Judged(db, job, env.envelopeOk)), []));
    events := [];
    if job.found.None? {
      Reject(store, job.rid, NotFound, None, env, [], n - 1);
      return;
    }
    var effect := Decide(PolicyFor(store.Tables(), job.who.id), job.tool, job.op);
    if effect == Deny {
      Reject(store, job.rid, Denied, None, env, [], n - 1);
    } else if job.found.value.rest && !env.envelopeOk {
      Reject(store, job.rid, Invalid, Some("invalid_envelope"), env, [], n - 1);
    } else if effect == Review {
      OpenApproval(store, job.rid, job.digest, env, [], n - 1);
    } else {
      events := ClaimDirectly(store, job, env, [], n - 1);
    }
  }

  /** A blank reason is none. */
  function Stated(reason: Option<string>): Option<string> {
    if reason.Some? && !Blank(reason.value) then reason else None
  }

  lemma StatedExactly(reason: Option<string>)
    ensures Stated(reason) == if reason != None && Strip(reason.value) != "" then reason else None
  {
    if reason.Some? {
      var _, _ := StripExactly(reason.value);
    }
  }

  /** The job of a submission that created its row. */
  function JobOf(db: Db, who: Principal, tool: string, op: string, arguments: string, found: Option<ToolOp>): Job
    requires db.requests != []
  {
    var rid := |db.requests| - 1;
    Job(rid, who, tool, op, arguments, db.requests[rid].bound.digest, found)
  }

  function FoundGeneration(found: Option<ToolOp>): string {
    if found.Some? then found.value.generation else ""
  }

  lemma SubmitTurn(db: Db, who: Principal, tool: string, op: string, arguments: string, reason: Option<string>,
                   found: Option<ToolOp>, key: Option<string>, nonce: string, now: Time)
    requires Resolves(found, tool, op)
    ensures var (db', answer) := Reserve(db, who, tool, op, arguments, reason, FoundGeneration(found), key, nonce, now);
            && Next(Alone(db, None, []), Submit(0, who, tool, op, arguments, reason, found, key, nonce, now))
            == Some(if found.None? && key.None? then Alone(db, None, [])
                    else if answer.Receipt? && answer.created
                         then Alone(db', Some(Deciding(JobOf(db', who, tool, op, arguments, found))), [])
                    else Alone(db', None, []))
  {
  }

  /** A submission run to its end. None answers an operation the catalog does not have, when there is no key
      to look up. */
  method SubmitAction(store: Store, who: Principal, tool: string, op: string, arguments: string,
                      reason: Option<string>, found: Option<ToolOp>, key: Option<string>, nonce: string, now: Time,
                      env: Env)
    returns (answer: Option<Reservation>, ghost events: seq<Event>)
    requires Resolves(found, tool, op) && Resolves(env.current, tool, op)
    modifies store
    ensures var db := old(store.Tables());
            var step := Submit(0, who, tool, op, arguments, Stated(reason), found, key, nonce, now);
            && Next(Alone(db, None, []), step).Some?
            && Driven(Next(Alone(db, None, []), step).value, 0, env, 5) == Alone(store.Tables(), None, events)
    ensures var db := old(store.Tables());
            var (db', receipt) := Reserve(db, who, tool, op, arguments, Stated(reason), FoundGeneration(found), key,
                                          nonce, now);
            if found.None? && key.None? then answer == None && store.Tables() == db && events == []
            else
              && answer == Some(receipt)
              && (store.Tables(), events) == if receipt.Receipt? && receipt.created
                                             then Decided(db', JobOf(db', who, tool, op, arguments, found), env)
                                             else (db, [])
  {
    ghost var db := store.Tables();
    SubmitTurn(db, who, tool, op, arguments, Stated(reason), found, key, nonce, now);
    hide Next, Decided;
    events := [];
    if found.None? && key.None? {
      return None, [];
    }
    var receipt := store.ReserveAction(who, tool, op, arguments, Stated(reason), FoundGeneration(found), key, nonce,
                                       now);
    if receipt.Receipt? && receipt.created {
      var digest := store.requests[receipt.id].bound.digest;
      events := Proceed(store, Job(receipt.id, who, tool, op, arguments, digest, found), env, 5);
    }
    return Some(receipt), events;
  }

  /** What a submission is answered with before any row is reserved, or what reserving answered. */
  datatype Receipted = KeyInvalid | NotListed | ActionInvalid | Reserved(reservation: Reservation)

  /** The whole of it: the key is checked, overdue approvals are swept, the catalog is asked, and only then is the
      shape of the action looked at and a row reserved. */
  method SubmitRequest(store: Store, who: Principal, tool: string, op: string, arguments: string, malformed: bool,
                       reason: Option<string>, found: Option<ToolOp>, key: Option<string>, nonce: string,
                       swept: Time, now: Time, env: Env)
    returns (answer: Receipted, ghost mid: Db, ghost rids: seq<nat>, ghost events: seq<Event>)
    requires DbInv(store.Tables()) && Resolves(found, tool, op) && Resolves(env.current, tool, op)
    modifies store
    ensures mid == BrokerOperations.SweptRows(old(store.Tables()), rids, swept)
    ensures !ValidKey(key) ==> answer == KeyInvalid && rids == [] && store.Tables() == mid && events == []
    ensures ValidKey(key) ==>
              && BrokerOperations.Closed(old(store.Tables()), mid, BrokerOperations.Due(old(store.Tables()), swept))
              && BrokerOperations.StampedBy(old(store.Tables()), mid, swept)
              && (answer == NotListed <==> found.None? && key.None?)
              && (answer == ActionInvalid <==> malformed && (found.Some? || key.Some?))
              && (!answer.Reserved? ==> store.Tables() == mid && events == [])
    ensures answer.Reserved? ==>
              var (db', receipt) := Reserve(mid, who, tool, op, arguments, Stated(reason), FoundGeneration(found), key,
                                            nonce, now);
              && answer.reservation == receipt
              && (store.Tables(), events) == if receipt.Receipt? && receipt.created
                                             then Decided(db', JobOf(db', who, tool, op, arguments, found), env)
                                             else (mid, [])
    ensures answer.Reserved? ==>
              var step := Submit(0, who, tool, op, arguments, Stated(reason), found, key, nonce, now);
              && Next(Alone(mid, None, []), step).Some?
              && Driven(Next(Alone(mid, None, []), step).value, 0, env, 5) == Alone(store.Tables(), None, events)
  {
    hide DbInv, Next, Driven, Decided, BrokerOperations.Closed, BrokerOperations.Due, BrokerOperations.StampedBy;
    mid, rids, events := store.Tables(), [], [];
    if !ValidKey(key) {
      return KeyInvalid, mid, rids, events;
    }
    var _, rows := BrokerOperations.SweepExpired(store, swept);
    mid, rids := store.Tables(), rows;
    if found.None? && key.None? {
      return NotListed, mid, rids, events;
    }
    if malformed {
      return ActionInvalid, mid, rids, events;
    }
    var reserved, sent := SubmitAction(store, who, tool, op, arguments, reason, found, key, nonce, now, env);
    return Reserved(reserved.value), mid, rids, sent;
  }

  // ---- what a submission ends with ----------------------------------------------------------------

  /** One row was appended and ended so, with the payload that status keeps; the approvals are as given. */
  ghost predicate EndsIn(db: Db, db': Db, row: Request, approvals: seq<Approval>) {
    && db'.callers == db.callers && db'.tokens == db.tokens && db'.policies == db.policies
    && db'.requests == db.requests + [row] && PayloadKept(row)
    && db'.approvals == approvals
  }

  /** The appended row with its final status, at whatever moment that was written. */
  ghost predicate RowIs(db': Db, row: Request, bound: Bound, status: Status, error: Option<string>,
                        result: Option<string>)
  {
    && db'.requests != [] && db'.requests[|db'.requests| - 1] == row
    && row.bound == bound && row.status == status && row.error == error && row.result == result
  }

  /** The new row is in place, received, and nothing else changed. */
  ghost predicate JustReserved(db: Db, db': Db, job: Job) {
    && job.rid == |db.requests| && |db'.requests| == job.rid + 1
    && EndsIn(db, db', db'.requests[job.rid], db.approvals)
    && var row := db'.requests[job.rid];
       && row.status == Received && row.error == None && row.result == None
       && row.bound.digest == job.digest && row.bound.digest.action.arguments == job.arguments
       && row.bound.tool == job.tool && row.bound.op == job.op && row.bound.caller == job.who.id
       && row.bound.generation == FoundGeneration(job.found) && Faithful(row.bound)
       && row.bound.policy == PolicyFor(db, job.who.id) && Live(db, job.who.id, Some(job.who))
  }

  lemma ReservedSo(db: Db, who: Principal, tool: string, op: string, arguments: string, reason: Option<string>,
                   found: Option<ToolOp>, key: Option<string>, nonce: string, now: Time)
    requires Reserve(db, who, tool, op, arguments, reason, FoundGeneration(found), key, nonce, now).1
          == Receipt(|db.requests|, true, false)
    ensures var db' := Reserve(db, who, tool, op, arguments, reason, FoundGeneration(found), key, nonce, now).0;
            JustReserved(db, db', JobOf(db', who, tool, op, arguments, found))
  {
  }

  lemma UpdatedSo(db: Db, mid: Db, rid: nat, status: Status, error: Option<string>, result: Option<string>, now: Time)
    requires (status == PendingApproval && error == None && result == None) || Terminal(status)
    requires rid == |db.requests| && |mid.requests| == rid + 1
    requires EndsIn(db, mid, mid.requests[rid], mid.approvals)
    requires mid.requests[rid].error == None && mid.requests[rid].result == None
    requires !Terminal(mid.requests[rid].status)
    ensures var db' := UpdateRequest(mid, rid, status, error, result, now);
            && |db'.requests| == rid + 1
            && EndsIn(db, db', db'.requests[rid], mid.approvals)
            && RowIs(db', db'.requests[rid], mid.requests[rid].bound, status, error, result)
  {
  }

  /** An allowed row is claimed exactly when the catalog still holds the entry it was reserved under. */
  lemma AllowedSo(db: Db, db1: Db, job: Job, env: Env)
    requires JustReserved(db, db1, job) && Resolves(env.current, job.tool, job.op) && job.found.Some?
    requires Decide(PolicyFor(db, job.who.id), job.tool, job.op) == Allow
    ensures var (end, events) := ClaimedAndExecuted(db1, job, env, []);
            var bound := db1.requests[job.rid].bound;
            && |end.requests| == job.rid + 1 && EndsIn(db, end, end.requests[job.rid], db.approvals)
            && if env.current.Some? && env.current.value.generation == job.found.value.generation != ""
               then && RowIs(end, end.requests[job.rid], bound, Outcome(env.reply).0, Outcome(env.reply).1,
                             ResultOf(env.reply))
                    && events == [Claimed(job.rid), Dispatched(job.rid, job.tool, job.op, job.found.value.generation,
                                                               job.arguments)]
               else RowIs(end, end.requests[job.rid], bound, Denied, Some("authority_changed"), None) && events == []
  {
    var (mid, claimed) := ClaimedDirectly(db1, job, env);
    assert HasActiveToken(db1, job.who.id) == HasActiveToken(db, job.who.id);
    assert claimed <==> env.current.Some? && env.current.value.generation == job.found.value.generation != "";
    if claimed {
      hide ClaimReceived, Live, Decide;
      UpdatedSo(db, mid, job.rid, Outcome(env.reply).0, Outcome(env.reply).1, ResultOf(env.reply), env.late);
    }
  }

  /** The catalog still holds the entry the row was reserved under. */
  predicate StillLoaded(job: Job, env: Env) {
    job.found.Some? && env.current.Some? && env.current.value.generation == job.found.value.generation != ""
  }

  /** The status, error and result each way of ending writes. */
  function EndOf(effect: Effect, job: Job, env: Env): (Status, Option<string>, Option<string>) {
    if job.found.None? then (NotFound, None, None)
    else if effect == Deny then (Denied, None, None)
    else if job.found.value.rest && !env.envelopeOk then (Invalid, Some("invalid_envelope"), None)
    else if effect == Review then
      if env.ref.None? then (Failed, Some("approval_unavailable"), None) else (PendingApproval, None, None)
    else if StillLoaded(job, env) then
      match env.reply
      case Returned(result) => (Completed, None, Some(result))
      case Refused => (Failed, Some("tool_unreachable"), None)
      case Unclear => (Unknown, Some("execution_outcome_unknown"), None)
    else (Denied, Some("authority_changed"), None)
  }

  predicate Executes(effect: Effect, job: Job, env: Env) {
    effect == Allow && StillLoaded(job, env) && (job.found.value.rest ==> env.envelopeOk)
  }

  /** How a submission that created a row has ended, in the tables and in the history. */
  ghost predicate Ends(db: Db, bound: Bound, job: Job, env: Env, end: Db, events: seq<Event>) {
    var effect := Decide(PolicyFor(db, job.who.id), job.tool, job.op);
    var (status, error, result) := EndOf(effect, job, env);
    && |end.requests| == job.rid + 1
    && RowIs(end, end.requests[job.rid], bound, status, error, result)
    && EndsIn(db, end, end.requests[job.rid],
              db.approvals + if status == PendingApproval && env.ref.Some?
                             then [Approval(job.rid, env.ref.value, job.digest, env.expiresAt, Awaiting, None, None,
                                            None)]
                             else [])
    && events == if Executes(effect, job, env)
                 then [Claimed(job.rid), Dispatched(job.rid, job.tool, job.op, job.found.value.generation,
                                                    job.arguments)]
                 else []
  }

  /** Uninterrupted, a submission that created a row ends as its policy effect says. A reviewed one is parked
      behind exactly one new approval, which carries its digest; an allowed one is dispatched once, exactly as
      reserved, unless the catalog entry was replaced meanwhile; every other is refused and dispatches nothing.
      No other row changes. */
  lemma SubmissionEnds(db: Db, who: Principal, tool: string, op: string, arguments: string, reason: Option<string>,
                       found: Option<ToolOp>, key: Option<string>, nonce: string, now: Time, env: Env)
    requires Resolves(found, tool, op) && Resolves(env.current, tool, op)
    requires Reserve(db, who, tool, op, arguments, reason, FoundGeneration(found), key, nonce, now).1
          == Receipt(|db.requests|, true, false)
    ensures var db1 := Reserve(db, who, tool, op, arguments, reason, FoundGeneration(found), key, nonce, now).0;
            var job := JobOf(db1, who, tool, op, arguments, found);
            var (end, events) := Decided(db1, job, env);
            Ends(db, NewRequest(db, who, tool, op, arguments, reason, FoundGeneration(found), key, nonce, now).bound,
                 job, env, end, events)
  {
    ReservedSo(db, who, tool, op, arguments, reason, found, key, nonce, now);
    var db1 := Reserve(db, who, tool, op, arguments, reason, FoundGeneration(found), key, nonce, now).0;
    hide Ends, Decided, JustReserved;
    DecidedSo(db, db1, JobOf(db1, who, tool, op, arguments, found), env);
  }

  lemma DecidedSo(db: Db, db1: Db, job: Job, env: Env)
    requires JustReserved(db, db1, job)
    requires Resolves(job.found, job.tool, job.op) && Resolves(env.current, job.tool, job.op)
    ensures Ends(db, db1.requests[job.rid].bound, job, env, Decided(db1, job, env).0, Decided(db1, job, env).1)
  {
    hide Ends, Decide, ClaimedAndExecuted, Opened, Live, Faithful, EndsIn;
    match Judged(db1, job, env.envelopeOk)
    case Refusing(_, _, _) => RefusedSo(db, db1, job, env);
    case Opening(_, _) => ParkedSo(db, db1, job, env);
    case _ => ClaimedSo(db, db1, job, env);
  }

  lemma RefusedSo(db: Db, db1: Db, job: Job, env: Env)
    requires JustReserved(db, db1, job) && Judged(db1, job, env.envelopeOk).Refusing?
    ensures Ends(db, db1.requests[job.rid].bound, job, env, Decided(db1, job, env).0, Decided(db1, job, env).1)
  {
    hide Decide, Live, Faithful, PayloadKept, UpdateRequest;
    var refusal := Judged(db1, job, env.envelopeOk);
    UpdatedSo(db, db1, job.rid, refusal.status, refusal.error, None, env.early);
  }

  lemma ClaimedSo(db: Db, db1: Db, job: Job, env: Env)
    requires JustReserved(db, db1, job)
    requires Resolves(job.found, job.tool, job.op) && Resolves(env.current, job.tool, job.op)
    requires Judged(db1, job, env.envelopeOk).Checking?
    ensures Ends(db, db1.requests[job.rid].bound, job, env, Decided(db1, job, env).0, Decided(db1, job, env).1)
  {
    AllowedSo(db, db1, job, env);
    hide Decide, Live, ClaimedAndExecuted, Faithful, PayloadKept;
  }

  lemma ParkedSo(db: Db, db1: Db, job: Job, env: Env)
    requires JustReserved(db, db1, job) && Judged(db1, job, env.envelopeOk).Opening?
    ensures Ends(db, db1.requests[job.rid].bound, job, env, Decided(db1, job, env).0, Decided(db1, job, env).1)
  {
    hide Decide, Live, Faithful, PayloadKept, UpdateRequest;
    if env.ref.None? {
      UpdatedSo(db, db1, job.rid, Failed, Some("approval_unavailable"), None, env.early);
    } else {
      var mid := CreateApproval(db1, job.rid, env.ref.value, env.expiresAt, job.digest).value;
      UpdatedSo(db, mid, job.rid, PendingApproval, None, None, env.early);
    }
  }
}
