/** The status poll (broker/request_lifecycle.py, resolve_request) run to its end on the store with nothing in
    between: it takes exactly the steps of module Protocol, and what it ends with is stated outright. */
module StatusPoll {
  import opened Wrappers
  import opened PolicyRules
  import opened BrokerDb
  import opened BrokerInvariant
  import opened BrokerColumns
  import opened BrokerStore
  import opened Protocol
  import opened ProtocolInvariant
  import opened Lifecycle

  // ---- its steps ----------------------------------------------------------------------------------

  lemma PollTurn(db: Db, rid: nat, who: Option<Principal>, now: Time)
    ensures Next(Alone(db, None, []), Poll(0, rid, who, now))
         == Some(if rid < |db.requests| && db.requests[rid].status == PendingApproval
                 then Alone(db, Some(Reading(Watch(rid, who, now, db.requests[rid]))), []) else Alone(db, None, []))
  {
  }

  /** What a poll does once it has read the approval row. */
  function AfterRead(db: Db, watch: Watch): Option<Worker> {
    var a := ApprovalIndex(db.approvals, watch.rid);
    if a >= |db.approvals| then None
    else if watch.now >= db.approvals[a].expiresAt then Some(Closing(watch.rid, TIMEOUT, None, watch.now, true))
    else Some(Asking(watch, a, db.approvals[a]))
  }

  lemma ReadTurn(db: Db, watch: Watch, history: seq<Event>)
    ensures Next(Alone(db, Some(Reading(watch)), history), ReadApproval(0))
         == Some(Alone(db, AfterRead(db, watch), history))
  {
    AloneMoves(db, Reading(watch), history, AfterRead(db, watch));
  }

  /** What an undisturbed poll does about the answer, once it has read both rows again. */
  function Rechecked(db: Db, watch: Watch, a: nat, ref: string, state: SurfaceState, at: Time): Option<Worker> {
    Weighed(db, watch, a, ref, state, at, StillPending(db, watch.rid))
  }

  lemma AskTurn(db: Db, watch: Watch, a: nat, app: Approval, history: seq<Event>, env: Env)
    ensures Next(Alone(db, Some(Asking(watch, a, app)), history), Ask(0, env.state))
         == Some(Alone(db, Some(Hearing(watch, a, app.ref, env.state)), history + [Heard(app.ref, env.state.outcome)]))
  {
    AloneMoves(db, Asking(watch, a, app), history + [Heard(app.ref, env.state.outcome)],
               Some(Hearing(watch, a, app.ref, env.state)));
  }

  lemma RereadTurns(db: Db, watch: Watch, a: nat, ref: string, history: seq<Event>, env: Env)
    ensures var weighing := Weighing(watch, a, ref, env.state, Later(watch.now, env.polled),
                                     StillPending(db, watch.rid));
            && Next(Alone(db, Some(Hearing(watch, a, ref, env.state)), history), Recheck(0, env.polled))
            == Some(Alone(db, Some(weighing), history))
            && Next(Alone(db, Some(weighing), history), Weigh(0))
            == Some(Alone(db, Rechecked(db, watch, a, ref, env.state, Later(watch.now, env.polled)), history))
  {
    var weighing := Weighing(watch, a, ref, env.state, Later(watch.now, env.polled), StillPending(db, watch.rid));
    AloneMoves(db, Hearing(watch, a, ref, env.state), history, Some(weighing));
    AloneMoves(db, weighing, history, Rechecked(db, watch, a, ref, env.state, Later(watch.now, env.polled)));
  }

  function ClaimedReviewed(db: Db, watch: Watch, env: Env): (Db, bool) {
    ClaimApproval(db, watch.rid, Generation(env.current), env.state, Later(watch.now, env.early), watch.who)
  }

  lemma GrantTurns(db: Db, watch: Watch, a: nat, ref: string, history: seq<Event>, env: Env)
    requires Resolves(env.current, watch.row.bound.tool, watch.row.bound.op)
    ensures Next(Alone(db, Some(Judging(watch, a, ref, env.state)), history), Lookup(0, env.current))
         == Some(Alone(db, Some(Granting(watch, a, ref, env.state, env.current)), history))
    ensures var (db', claimed) := ClaimedReviewed(db, watch, env);
            && Next(Alone(db, Some(Granting(watch, a, ref, env.state, env.current)), history),
                    ClaimReviewed(0, env.early))
            == Some(if claimed && env.current.Some?
                    then Alone(db', Some(Running(watch.rid, env.current.value, watch.row.arguments.GetOr("{}"))),
                               history + [Claimed(watch.rid)])
                    else Alone(db', None, history))
  {
    var db' := ClaimedReviewed(db, watch, env).0;
    var granting := Granting(watch, a, ref, env.state, env.current);
    AloneMoves(db, Judging(watch, a, ref, env.state), history, Some(granting));
    AloneMoves(db', granting, history, None);
    if env.current.Some? {
      AloneMoves(db', granting, history + [Claimed(watch.rid)],
                 Some(Running(watch.rid, env.current.value, watch.row.arguments.GetOr("{}"))));
    }
  }

  /** When a closing poll writes. */
  function ClosedAt(wk: Worker, env: Env): Time
    requires wk.Closing?
  {
    if wk.deadlineOnly then wk.now else Later(wk.now, env.early)
  }

  function Finished(db: Db, wk: Worker, env: Env): Db
    requires wk.Closing?
  {
    FinishPending(db, wk.rid, wk.ending, wk.answer, ClosedAt(wk, env), wk.deadlineOnly).0
  }

  lemma CloseTurn(db: Db, wk: Worker, history: seq<Event>, env: Env)
    requires wk.Closing?
    ensures Next(Alone(db, Some(wk), history), Close(0, env.early)) == Some(Alone(Finished(db, wk, env), None, history))
  {
  }

  // ---- the handler --------------------------------------------------------------------------------

  method ClosePending(store: Store, wk: Worker, env: Env, ghost history: seq<Event>, ghost n: nat)
    requires wk.Closing? && n >= 1
    modifies store
    ensures Driven(Alone(old(store.Tables()), Some(wk), history), 0, env, n) == Alone(store.Tables(), None, history)
    ensures store.Tables() == Finished(old(store.Tables()), wk, env)
  {
    hide Next;
    ghost var db := store.Tables();
    CloseTurn(db, wk, history, env);
    var _ := store.FinishPending(wk.rid, wk.ending, wk.answer, ClosedAt(wk, env), wk.deadlineOnly);
    DrivenOn(db, wk, history, env, n, Alone(store.Tables(), None, history));
  }

  function GrantedAndExecuted(db: Db, watch: Watch, env: Env, history: seq<Event>): (Db, seq<Event>) {
    var (db', claimed) := ClaimedReviewed(db, watch, env);
    if claimed && env.current.Some?
    then Executed(db', watch.rid, env.current.value, watch.row.arguments.GetOr("{}"), env,
                  history + [Claimed(watch.rid)])
    else (db', history)
  }

  method Grant(store: Store, watch: Watch, a: nat, ref: string, env: Env, ghost history: seq<Event>, ghost n: nat)
    returns (ghost events: seq<Event>)
    requires Resolves(env.current, watch.row.bound.tool, watch.row.bound.op) && n >= 4
    modifies store
    ensures Driven(Alone(old(store.Tables()), Some(Judging(watch, a, ref, env.state)), history), 0, env, n)
         == Alone(store.Tables(), None, events)
    ensures (store.Tables(), events) == GrantedAndExecuted(old(store.Tables()), watch, env, history)
  {
    hide Next, BrokerDb.ClaimApproval, Executed;
    ghost var db := store.Tables();
    ghost var granting := Granting(watch, a, ref, env.state, env.current);
    GrantTurns(db, watch, a, ref, history, env);
    DrivenOn(db, Judging(watch, a, ref, env.state), history, env, n, Alone(db, Some(granting), history));
    var claimed := store.ClaimApproval(watch.rid, Generation(env.current), env.state, Later(watch.now, env.early),
                                       watch.who);
    ghost var mid := store.Tables();
    if claimed && env.current.Some? {
      var arguments := watch.row.arguments.GetOr("{}");
      events := history + [Claimed(watch.rid)];
      DrivenOn(db, granting, history, env, n - 1,
               Alone(mid, Some(Running(watch.rid, env.current.value, arguments)), events));
      events := Execute(store, watch.rid, env.current.value, arguments, env, events, n - 2);
    } else {
      events := history;
      DrivenOn(db, granting, history, env, n - 1, Alone(mid, None, history));
    }
  }

  /** The tables and the history after a poll whose approval the surface was asked about. */
  function Heeded(db: Db, watch: Watch, a: nat, app: Approval, env: Env): (Db, seq<Event>) {
    var history := [Heard(app.ref, env.state.outcome)];
    match Rechecked(db, watch, a, app.ref, env.state, Later(watch.now, env.polled))
    case Some(Judging(_, _, _, _)) => GrantedAndExecuted(db, watch, env, history)
    case Some(Closing(rid, ending, answer, now, deadlineOnly)) =>
      (Finished(db, Closing(rid, ending, answer, now, deadlineOnly), env), history)
    case _ => (db, history)
  }

  function Polled(db: Db, rid: nat, who: Option<Principal>, now: Time, env: Env): (Db, seq<Event>) {
    if rid >= |db.requests| || db.requests[rid].status != PendingApproval then (db, [])
    else
      var watch := Watch(rid, who, now, db.requests[rid]);
      match AfterRead(db, watch)
      case Some(Closing(r, ending, answer, at, deadlineOnly)) =>
        (Finished(db, Closing(r, ending, answer, at, deadlineOnly), env), [])
      case Some(Asking(_, a, app)) => Heeded(db, watch, a, app, env)
      case _ => (db, [])
  }

  method Heed(store: Store, watch: Watch, a: nat, app: Approval, env: Env) returns (ghost events: seq<Event>)
    requires Resolves(env.current, watch.row.bound.tool, watch.row.bound.op)
    modifies store
    ensures Driven(Alone(old(store.Tables()), Some(Asking(watch, a, app)), []), 0, env, 7)
         == Alone(store.Tables(), None, events)
    ensures (store.Tables(), events) == Heeded(old(store.Tables()), watch, a, app, env)
  {
    hide Next, Driven, GrantedAndExecuted, Weighed, Finished;
    ghost var db := store.Tables();
    events := [Heard(app.ref, env.state.outcome)];
    AskTurn(db, watch, a, app, [], env);
    assert [] + events == events;
    DrivenOn(db, Asking(watch, a, app), [], env, 7, Alone(db, Some(Hearing(watch, a, app.ref, env.state)), events));
    var pending := StillPending(store.Tables(), watch.rid);
    var weighing := Weighing(watch, a, app.ref, env.state, Later(watch.now, env.polled), pending);
    RereadTurns(db, watch, a, app.ref, events, env);
    DrivenOn(db, Hearing(watch, a, app.ref, env.state), events, env, 6, Alone(db, Some(weighing), events));
    var next := Weighed(store.Tables(), watch, a, app.ref, env.state, Later(watch.now, env.polled), pending);
    DrivenOn(db, weighing, events, env, 5, Alone(db, next, events));
    WeighedKinds(db, watch, a, app.ref, env.state, Later(watch.now, env.polled), pending);
    if next.Some? && next.value.Closing? {
      ClosePending(store, next.value, env, events, 4);
    } else if next.Some? {
      events := Grant(store, watch, a, app.ref, env, events, 4);
    } else {
      DrivenDone(db, events, env, 4);
    }
  }

  lemma WeighedKinds(db: Db, watch: Watch, a: nat, ref: string, state: SurfaceState, at: Time, pending: bool)
    ensures match Weighed(db, watch, a, ref, state, at, pending)
            case None => true
            case Some(next) => next.Closing? || next == Judging(watch, a, ref, state)
  {
  }

  /** A poll run to its end. */
  method ResolveRequest(store: Store, rid: nat, who: Option<Principal>, now: Time, env: Env)
    returns (ghost events: seq<Event>)
    requires rid < |store.requests| ==>
               Resolves(env.current, store.requests[rid].bound.tool, store.requests[rid].bound.op)
    modifies store
    ensures var db := old(store.Tables());
            && Next(Alone(db, None, []), Poll(0, rid, who, now)).Some?
            && Driven(Next(Alone(db, None, []), Poll(0, rid, who, now)).value, 0, env, 8)
            == Alone(store.Tables(), None, events)
    ensures (store.Tables(), events) == Polled(old(store.Tables()), rid, who, now, env)
  {
    ghost var db := store.Tables();
    PollTurn(db, rid, who, now);
    hide Next, Heeded, Finished;
    events := [];
    if rid >= |store.requests| || store.requests[rid].status != PendingApproval {
      return;
    }
    var watch := Watch(rid, who, now, store.requests[rid]);
    ReadTurn(db, watch, []);
    DrivenOn(db, Reading(watch), [], env, 8, Alone(db, AfterRead(db, watch), []));
    var a := ApprovalIndex(store.approvals, rid);
    if a >= |store.approvals| {
      return;
    }
    if now >= store.approvals[a].expiresAt {
      ClosePending(store, Closing(rid, TIMEOUT, None, now, true), env, [], 7);
      return;
    }
    events := Heed(store, watch, a, store.approvals[a], env);
  }

  // ---- what a poll ends with ----------------------------------------------------------------------

  /** The human approved, every reading of the clock was before the deadline, and the authority bound at reservation
      is still there. */
  ghost predicate Granted(db: Db, row: Request, app: Approval, who: Option<Principal>, now: Time, env: Env) {
    && env.state.outcome == Yes
    && now < app.expiresAt && env.polled < app.expiresAt && env.early < app.expiresAt
    && env.current.Some? && Entitled(db, row, Some(env.current.value.generation), who, "review")
  }

  /** What a poll of a pending request leaves, by what the surface reports and when: the request's status, error and
      result, and the approval's status. */
  ghost function PollEnd(db: Db, row: Request, app: Approval, who: Option<Principal>, now: Time, env: Env)
    : (Status, Option<string>, Option<string>, ApprovalStatus)
  {
    var withdrawn := !MayAct(db, row.bound.caller, None);
    var late := env.early >= app.expiresAt;
    if now >= app.expiresAt || env.polled >= app.expiresAt then (Expired, None, None, Lapsed)
    else match env.state.outcome
      case Undecided => (PendingApproval, None, None, Awaiting)
      case Yes =>
        if Granted(db, row, app, who, now, env) then
          match env.reply
          case Returned(result) => (Completed, None, Some(result), Approved)
          case Refused => (Failed, Some("tool_unreachable"), None, Approved)
          case Unclear => (Unknown, Some("execution_outcome_unknown"), None, Approved)
        else if late then (Expired, None, None, Lapsed)
        else (Denied, Some("approval_invalidated"), None, Cancelled)
      case No =>
        if late then (Expired, None, None, Lapsed)
        else if withdrawn then (Expired, None, None, Cancelled)
        else (Denied, Some("approval_rejected"), None, Rejected)
      case TimedOut => if !late && withdrawn then (Expired, None, None, Cancelled) else (Expired, None, None, Lapsed)
      case Withdrawn => if late then (Expired, None, None, Lapsed) else (Expired, None, None, Cancelled)
  }

  /** Everything but one request and its approval is as before. */
  ghost predicate OnlyPair(db: Db, db': Db, rid: nat, a: nat)
    requires rid < |db.requests| && a < |db.approvals|
  {
    && db'.callers == db.callers && db'.tokens == db.tokens && db'.policies == db.policies
    && |db'.requests| == |db.requests| && db'.requests == db.requests[rid := db'.requests[rid]]
    && |db'.approvals| == |db.approvals| && db'.approvals == db.approvals[a := db'.approvals[a]]
  }

  /** When it ended: at the tool's reply, or else at the later of the poll's first and its last reading of the clock. */
  ghost function EndedAt(db: Db, row: Request, app: Approval, who: Option<Principal>, now: Time, env: Env): Time {
    if Granted(db, row, app, who, now, env) then env.late
    else if now >= app.expiresAt then now
    else
      var last := if env.polled >= app.expiresAt then env.polled else env.early;
      if last > now then last else now
  }

  /** The columns both rows end with; the binding stays, and the payload goes with the last status that needs it. */
  ghost predicate RowEnds(end: Db, rid: nat, a: nat, row: Request,
                          columns: (Status, Option<string>, Option<string>, ApprovalStatus))
    requires rid < |end.requests| && a < |end.approvals|
  {
    var row' := end.requests[rid];
    && row'.bound == row.bound && PayloadKept(row')
    && (row'.status, row'.error, row'.result, end.approvals[a].status) == columns
  }

  /** How a poll of a waiting request has ended, in the tables and in the history. */
  ghost predicate PollDone(db: Db, rid: nat, a: nat, who: Option<Principal>, now: Time, env: Env, end: Db,
                           events: seq<Event>)
    requires Waiting(db, rid, a)
  {
    var row, app := db.requests[rid], db.approvals[a];
    && OnlyPair(db, end, rid, a)
    && RowEnds(end, rid, a, row, PollEnd(db, row, app, who, now, env))
    && (end.requests[rid].status != PendingApproval ==>
          end.requests[rid].updatedAt == EndedAt(db, row, app, who, now, env))
    && (end.approvals[a].status in {Approved, Rejected} ==> AnsweredAs(app, end.approvals[a], end.approvals[a].status,
                                                                      Some(env.state)))
    && events == if now >= app.expiresAt then []
                 else if Granted(db, row, app, who, now, env)
                      then [Heard(app.ref, Yes), Claimed(rid),
                            Dispatched(rid, row.bound.tool, row.bound.op, row.bound.generation,
                                       row.bound.digest.action.arguments)]
                 else [Heard(app.ref, env.state.outcome)]
  }

  lemma FinishSo(db: Db, rid: nat, a: nat, ending: Ending, state: Option<SurfaceState>, at: Time, deadlineOnly: bool)
    requires Waiting(db, rid, a) && (deadlineOnly ==> db.approvals[a].expiresAt <= at) && Terminal(ending.status)
    ensures var end := FinishPending(db, rid, ending, state, at, deadlineOnly).0;
            var row, app := db.requests[rid], db.approvals[a];
            && OnlyPair(db, end, rid, a)
            && RowEnds(end, rid, a, row,
                       if at >= app.expiresAt then (Expired, None, None, Lapsed)
                       else if !MayAct(db, row.bound.caller, None) then (Expired, None, None, Cancelled)
                       else (ending.status, ending.error, None, ending.answer))
            && AnsweredAs(app, end.approvals[a], end.approvals[a].status, state) && end.requests[rid].updatedAt == at
  {
    FinishedOrKept(db, rid, a, ending, state, at, deadlineOnly);
    hide MayAct, Faithful, FinishPending;
  }

  /** The reviewed claim succeeds exactly when the request is granted, and else ends both rows. */
  lemma ClaimSo(db: Db, rid: nat, a: nat, who: Option<Principal>, now: Time, env: Env)
    requires Waiting(db, rid, a) && env.state.outcome == Yes
    requires db.approvals[a].expiresAt > now && db.approvals[a].expiresAt > env.polled
    ensures var row, app := db.requests[rid], db.approvals[a];
            var (end, claimed) := ClaimedReviewed(db, Watch(rid, who, now, row), env);
            && OnlyPair(db, end, rid, a)
            && (claimed <==> Granted(db, row, app, who, now, env))
            && RowEnds(end, rid, a, row,
                       if claimed then (Executing, None, None, Approved)
                       else if env.early >= app.expiresAt then (Expired, None, None, Lapsed)
                       else (Denied, Some("approval_invalidated"), None, Cancelled))
            && (claimed ==> AnsweredAs(app, end.approvals[a], Approved, Some(env.state)))
            && end.requests[rid].updatedAt == (if env.early > now then env.early else now)
  {
    AuthorizedSo(db, db.requests[rid], Generation(env.current), who, Review);
    ClaimedOrEnded(db, rid, a, Generation(env.current), env.state, Later(now, env.early), who);
    hide Authorized, Entitled, ClaimApproval, Faithful;
  }

  lemma GrantedSo(db: Db, rid: nat, a: nat, who: Option<Principal>, now: Time, env: Env)
    requires Waiting(db, rid, a) && env.state.outcome == Yes
    requires db.approvals[a].expiresAt > now && db.approvals[a].expiresAt > env.polled
    requires Resolves(env.current, db.requests[rid].bound.tool, db.requests[rid].bound.op)
    ensures var (end, events) := GrantedAndExecuted(db, Watch(rid, who, now, db.requests[rid]), env,
                                                    [Heard(db.approvals[a].ref, Yes)]);
            PollDone(db, rid, a, who, now, env, end, events)
  {
    ClaimSo(db, rid, a, who, now, env);
    hide ClaimApproval, MayAct, Carries, StoredPolicy;
  }

  /** A rejection, a timeout or a withdrawal reported before the deadline. */
  lemma ReportedSo(db: Db, rid: nat, a: nat, who: Option<Principal>, now: Time, env: Env)
    requires Waiting(db, rid, a) && db.approvals[a].expiresAt > now && db.approvals[a].expiresAt > env.polled
    requires env.state.outcome in {No, TimedOut, Withdrawn}
    ensures var (end, events) := Heeded(db, Watch(rid, who, now, db.requests[rid]), a, db.approvals[a], env);
            PollDone(db, rid, a, who, now, env, end, events)
  {
    ReportCloses(db, rid, a, who, now, env);
    FinishSo(db, rid, a, Reported(env.state.outcome), if env.state.outcome == No then Some(env.state) else None,
             Later(now, env.early), false);
    hide Heeded, FinishPending, Entitled, MayAct, OnlyPair, PayloadKept, Faithful;
  }

  function Reported(outcome: Verdict): Ending {
    match outcome
    case No => Ending(Denied, Rejected, Some("approval_rejected"))
    case TimedOut => Ending(Expired, Lapsed, None)
    case _ => Ending(Expired, Cancelled, None)
  }

  lemma ReportCloses(db: Db, rid: nat, a: nat, who: Option<Principal>, now: Time, env: Env)
    requires Waiting(db, rid, a) && db.approvals[a].expiresAt > now && db.approvals[a].expiresAt > env.polled
    requires env.state.outcome in {No, TimedOut, Withdrawn}
    ensures Heeded(db, Watch(rid, who, now, db.requests[rid]), a, db.approvals[a], env)
         == (FinishPending(db, rid, Reported(env.state.outcome),
                           if env.state.outcome == No then Some(env.state) else None, Later(now, env.early), false).0,
             [Heard(db.approvals[a].ref, env.state.outcome)])
  {
    hide FinishPending, GrantedAndExecuted, Faithful, PayloadKept;
  }

  lemma HeededSo(db: Db, rid: nat, a: nat, who: Option<Principal>, now: Time, env: Env)
    requires Waiting(db, rid, a) && db.approvals[a].expiresAt > now
    requires Resolves(env.current, db.requests[rid].bound.tool, db.requests[rid].bound.op)
    ensures var (end, events) := Heeded(db, Watch(rid, who, now, db.requests[rid]), a, db.approvals[a], env);
            PollDone(db, rid, a, who, now, env, end, events)
  {
    if env.polled >= db.approvals[a].expiresAt {
      FinishSo(db, rid, a, TIMEOUT, None, Later(now, env.polled), true);
      hide FinishPending, Entitled, MayAct;
    } else if env.state.outcome == Yes {
      GrantedSo(db, rid, a, who, now, env);
      hide PollDone, GrantedAndExecuted;
    } else if env.state.outcome != Undecided {
      ReportedSo(db, rid, a, who, now, env);
    } else {
      hide Entitled, MayAct;
    }
  }

  /** Uninterrupted, a poll of a waiting request ends both rows together, as the deadline, the surface and the
      authority at that moment say, and touches no other. It dispatches only a granted request, once, with
      exactly the operation and arguments reserved. */
  lemma PollEnds(db: Db, rid: nat, a: nat, who: Option<Principal>, now: Time, env: Env)
    requires Waiting(db, rid, a)
    requires Resolves(env.current, db.requests[rid].bound.tool, db.requests[rid].bound.op)
    ensures PollDone(db, rid, a, who, now, env, Polled(db, rid, who, now, env).0, Polled(db, rid, who, now, env).1)
  {
    if now >= db.approvals[a].expiresAt {
      FinishSo(db, rid, a, TIMEOUT, None, now, true);
      hide FinishPending, Entitled, MayAct;
    } else {
      HeededSo(db, rid, a, who, now, env);
      hide PollDone, Heeded;
    }
  }
}
