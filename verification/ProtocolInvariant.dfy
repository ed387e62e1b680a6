/** The ownership discipline that makes the broker's unconditional updates safe, kept by every step: only the
    creator of a row advances it from received, and only the worker holding its claim finishes it. A crash
    drops ownership and nothing ever hands it over. */
module ProtocolInvariant {
  import opened Wrappers
  import opened PolicyRules
  import opened BrokerDb
  import opened BrokerInvariant
  import opened Protocol

  /** The request whose row a worker may still overwrite without looking. */
  function Owned(wk: Worker): Option<nat> {
    match wk
    case Deciding(job) => Some(job.rid)
    case Refusing(rid, _, _) => Some(rid)
    case Opening(rid, _) => Some(rid)
    case Recording(rid, _, _) => Some(rid)
    case Parking(rid) => Some(rid)
    case Checking(job) => Some(job.rid)
    case Claiming(job, _) => Some(job.rid)
    case Running(rid, _, _) => Some(rid)
    case Finishing(rid) => Some(rid)
    case _ => None
  }

  /** A creator before it records an approval: its row is as it inserted it. */
  ghost predicate Fresh(db: Db, rid: nat) {
    rid < |db.requests| && db.requests[rid].status == Received && !HasApproval(db, rid)
  }

  ghost predicate JobOk(db: Db, job: Job) {
    && Fresh(db, job.rid)
    && var b := db.requests[job.rid].bound;
       && job.who.id == b.caller && job.tool == b.tool && job.op == b.op
       && job.digest == b.digest && job.arguments == b.digest.action.arguments
  }

  ghost predicate WatchOk(db: Db, watch: Watch) {
    && watch.rid < |db.requests|
    && watch.row.bound == db.requests[watch.rid].bound
    && watch.row.arguments == Some(watch.row.bound.digest.action.arguments)
  }

  /** The surface reference a poller uses is that of the request's own approval row. */
  ghost predicate RefOk(db: Db, watch: Watch, a: nat, ref: string) {
    a < |db.approvals| && db.approvals[a].request == watch.rid && db.approvals[a].ref == ref
  }

  /** What is dispatched is what the row was reserved with. */
  ghost predicate AsReserved(db: Db, rid: nat, tool: string, op: string, generation: string, arguments: string) {
    && rid < |db.requests|
    && var b := db.requests[rid].bound;
       b.tool == tool && b.op == op && b.generation == generation && b.digest.action.arguments == arguments
  }

  ghost predicate Spent(h: seq<Event>, rid: nat) {
    exists i :: 0 <= i < |h| && h[i].Dispatched? && h[i].rid == rid
  }

  ghost predicate WorkerOk(db: Db, h: seq<Event>, wk: Worker) {
    match wk
    case Deciding(job) => JobOk(db, job)
    case Checking(job) => JobOk(db, job)
    case Claiming(job, current) => JobOk(db, job) && Resolves(current, job.tool, job.op)
    case Refusing(rid, status, _) => Fresh(db, rid) && status in {NotFound, Denied, Invalid, Failed}
    case Opening(rid, digest) => Fresh(db, rid) && digest == db.requests[rid].bound.digest
    case Recording(rid, digest, _) => Fresh(db, rid) && digest == db.requests[rid].bound.digest
    case Parking(rid) =>
      && rid < |db.requests| && db.requests[rid].status == Received && HasApproval(db, rid)
      && db.approvals[ApprovalIndex(db.approvals, rid)].status == Awaiting
    case Running(rid, toolOp, arguments) =>
      && AsReserved(db, rid, toolOp.tool, toolOp.op, toolOp.generation, arguments)
      && db.requests[rid].status == Executing && Claimed(rid) in h && !Spent(h, rid)
    case Finishing(rid) => rid < |db.requests| && db.requests[rid].status == Executing && Spent(h, rid)
    case Reading(watch) => WatchOk(db, watch)
    case Asking(watch, a, app) => WatchOk(db, watch) && RefOk(db, watch, a, app.ref)
    case Hearing(watch, a, ref, state) =>
      WatchOk(db, watch) && RefOk(db, watch, a, ref) && Heard(ref, state.outcome) in h
    case Weighing(watch, a, ref, state, _, _) =>
      WatchOk(db, watch) && RefOk(db, watch, a, ref) && Heard(ref, state.outcome) in h
    case Judging(watch, a, ref, state) =>
      && WatchOk(db, watch) && RefOk(db, watch, a, ref) && Heard(ref, state.outcome) in h
      && state.outcome == Yes
    case Granting(watch, a, ref, state, current) =>
      && WatchOk(db, watch) && RefOk(db, watch, a, ref) && Heard(ref, state.outcome) in h
      && state.outcome == Yes
      && Resolves(current, watch.row.bound.tool, watch.row.bound.op)
    case Closing(_, ending, _, _, _) => LegalEnding(ending)
  }

  ghost predicate WorkersOk(db: Db, h: seq<Event>, workers: map<nat, Worker>) {
    forall w | w in workers :: WorkerOk(db, h, workers[w])
  }

  /** No two workers own the same request. */
  ghost predicate Exclusive(workers: map<nat, Worker>) {
    forall v, w | v in workers && w in workers && v != w ::
      Owned(workers[v]) == None || Owned(workers[v]) != Owned(workers[w])
  }

  /** An event about a request happened below the statuses that can still be claimed. */
  ghost predicate EventOk(db: Db, e: Event) {
    match e
    case Heard(_, _) => true
    case Claimed(rid) => rid < |db.requests| && Rank(db.requests[rid].status) <= 2
    case Dispatched(rid, tool, op, generation, arguments) =>
      AsReserved(db, rid, tool, op, generation, arguments) && Rank(db.requests[rid].status) <= 2
  }

  ghost predicate HistoryOk(db: Db, h: seq<Event>) {
    forall i | 0 <= i < |h| :: EventOk(db, h[i])
  }

  /** At most one claim and one dispatch per request, and no dispatch without its claim before it. */
  ghost predicate AtMostOnce(h: seq<Event>) {
    && (forall i, j | 0 <= i < j < |h| && h[i].Claimed? && h[j].Claimed? :: h[i].rid != h[j].rid)
    && (forall i, j | 0 <= i < j < |h| && h[i].Dispatched? && h[j].Dispatched? :: h[i].rid != h[j].rid)
    && (forall j | 0 <= j < |h| && h[j].Dispatched? :: Claimed(h[j].rid) in h[..j])
  }

  ghost predicate Inv(s: System) {
    && DbInv(s.db)
    && WorkersOk(s.db, s.history, s.workers)
    && Exclusive(s.workers)
    && HistoryOk(s.db, s.history)
    && AtMostOnce(s.history)
  }

  // ---- frames -------------------------------------------------------------------------------------

  /** The rows a step of worker w may overwrite unconditionally. */
  function Owns(s: System, w: nat): set<nat> {
    if w in s.workers && Owned(s.workers[w]).Some? then {Owned(s.workers[w]).value} else {}
  }

  /** The tables evolve, answers stay coupled, and only w's own row may leave received or executing. */
  ghost predicate Framed(s: System, s': System, w: nat) {
    && Evolves(s.db, s'.db)
    && AnswersPending(s.db, s'.db)
    && Undisturbed(s.db, s'.db, Owns(s, w))
  }

  lemma SameIndex(db: Db, db': Db, rid: nat)
    requires DbInv(db) && DbInv(db') && Evolves(db, db') && SameFor(db, db', rid)
    ensures HasApproval(db', rid) == HasApproval(db, rid)
    ensures HasApproval(db, rid) ==>
              db'.approvals[ApprovalIndex(db'.approvals, rid)] == db.approvals[ApprovalIndex(db.approvals, rid)]
  {
  }

  lemma PollerFrame(db: Db, db': Db, h: seq<Event>, more: seq<Event>, wk: Worker)
    requires Evolves(db, db') && WorkerOk(db, h, wk) && Owned(wk) == None
    ensures WorkerOk(db', h + more, wk)
  {
  }

  lemma OwnerFrame(db: Db, db': Db, h: seq<Event>, more: seq<Event>, wk: Worker)
    requires DbInv(db) && DbInv(db') && Evolves(db, db') && WorkerOk(db, h, wk)
    requires Owned(wk).Some? && SameFor(db, db', Owned(wk).value)
    requires wk.Running? ==> forall i | 0 <= i < |more| :: more[i].Dispatched? ==> more[i].rid != wk.rid
    ensures WorkerOk(db', h + more, wk)
  {
    assert forall e | e in h :: e in h + more;
    assert forall i | 0 <= i < |h| :: (h + more)[i] == h[i];
    SameIndex(db, db', Owned(wk).value);
  }

  /** A worker's knowledge survives any change that leaves the row it owns alone. */
  lemma WorkerFrame(db: Db, db': Db, h: seq<Event>, more: seq<Event>, wk: Worker)
    requires DbInv(db) && DbInv(db') && Evolves(db, db') && WorkerOk(db, h, wk)
    requires Owned(wk).Some? ==> SameFor(db, db', Owned(wk).value)
    requires wk.Running? ==> forall i | 0 <= i < |more| :: more[i].Dispatched? ==> more[i].rid != wk.rid
    ensures WorkerOk(db', h + more, wk)
  {
    if Owned(wk).Some? {
      OwnerFrame(db, db', h, more, wk);
    } else {
      PollerFrame(db, db', h, more, wk);
    }
  }

  lemma EventFrame(db: Db, db': Db, e: Event)
    requires Evolves(db, db') && EventOk(db, e)
    ensures EventOk(db', e)
  {
  }

  /** An owned row is received or executing, so the frame of a transaction covers it. */
  lemma OwnedActive(db: Db, h: seq<Event>, wk: Worker)
    requires WorkerOk(db, h, wk) && Owned(wk).Some?
    ensures Owned(wk).value < |db.requests| && db.requests[Owned(wk).value].status in {Received, Executing}
  {
  }

  /** One step: the tables move within a frame, one worker may change, events may be recorded. */
  lemma Advance(s: System, s': System, w: nat, next: Option<Worker>, more: seq<Event>, but: set<nat>)
    requires Inv(s) && Keeps(s.db, s'.db, but)
    requires s' == Move(s.(db := s'.db, history := s.history + more), w, next)
    requires forall v, rid | v in s.workers && v != w && rid in but :: Owned(s.workers[v]) != Some(rid)
    requires forall v, i | v in s.workers && v != w && 0 <= i < |more| && more[i].Dispatched? ::
               Owned(s.workers[v]) != Some(more[i].rid)
    requires next.Some? ==> WorkerOk(s'.db, s'.history, next.value)
    requires next.Some? && Owned(next.value).Some? ==>
               forall v | v in s.workers && v != w :: Owned(s.workers[v]) != Owned(next.value)
    requires forall i | 0 <= i < |more| :: EventOk(s'.db, more[i])
    requires AtMostOnce(s.history + more)
    requires but <= Owns(s, w)
    ensures Inv(s') && Framed(s, s', w)
  {
    forall v | v in s'.workers && v != w ensures WorkerOk(s'.db, s'.history, s'.workers[v]) {
      var wk := s.workers[v];
      if Owned(wk).Some? {
        OwnedActive(s.db, s.history, wk);
        assert SameFor(s.db, s'.db, Owned(wk).value);
      }
      WorkerFrame(s.db, s'.db, s.history, more, wk);
    }
    forall i | 0 <= i < |s.history| ensures EventOk(s'.db, s.history[i]) {
      EventFrame(s.db, s'.db, s.history[i]);
    }
  }

  lemma SameTables(db: Db)
    requires DbInv(db)
    ensures Keeps(db, db, {})
  {
  }

  /** Nobody but w owns what w owns. */
  lemma Sole(s: System, w: nat, rid: nat)
    requires Inv(s) && w in s.workers && Owned(s.workers[w]) == Some(rid)
    ensures forall v | v in s.workers && v != w :: Owned(s.workers[v]) != Some(rid)
  {
  }

  /** Nobody owns a row that is neither received nor executing. */
  lemma Unowned(s: System, rid: nat)
    requires Inv(s)
    requires rid >= |s.db.requests| || s.db.requests[rid].status !in {Received, Executing}
    ensures forall v | v in s.workers :: Owned(s.workers[v]) != Some(rid)
  {
    forall v | v in s.workers && Owned(s.workers[v]).Some? ensures Owned(s.workers[v]) != Some(rid) {
      OwnedActive(s.db, s.history, s.workers[v]);
    }
  }

  /** A claim is recorded for a row that was still above every recorded event. */
  lemma ClaimOnce(db: Db, h: seq<Event>, rid: nat)
    requires HistoryOk(db, h) && AtMostOnce(h)
    requires rid < |db.requests| && Rank(db.requests[rid].status) >= 3
    ensures AtMostOnce(h + [Claimed(rid)]) && !Spent(h + [Claimed(rid)], rid)
  {
    var h' := h + [Claimed(rid)];
    forall i | 0 <= i < |h| ensures h[i].Heard? || h[i].rid != rid {
      assert EventOk(db, h[i]);
    }
    forall j | 0 <= j < |h'| && h'[j].Dispatched? ensures Claimed(h'[j].rid) in h'[..j] {
      assert h'[..j] == h[..j];
    }
  }

  // ---- the steps of a submission ------------------------------------------------------------------

  lemma SubmitKeeps(s: System, step: Step)
    requires Inv(s) && step.Submit? && SubmitNext(s, step).Some?
    ensures Inv(SubmitNext(s, step).value) && Framed(s, SubmitNext(s, step).value, step.w)
  {
    var s' := SubmitNext(s, step).value;
    SameTables(s.db);
    if step.found.Some? || step.key.Some? {
      var generation := if step.found.Some? then step.found.value.generation else "";
      ReserveKeeps(s.db, step.who, step.tool, step.op, step.arguments, step.reason, generation, step.key,
                   step.nonce, step.now);
      var (db, answer) := Reserve(s.db, step.who, step.tool, step.op, step.arguments, step.reason, generation,
                                  step.key, step.nonce, step.now);
      if answer.Receipt? && answer.created {
        var job := Job(answer.id, step.who, step.tool, step.op, step.arguments,
                       db.requests[answer.id].bound.digest, step.found);
        forall a | 0 <= a < |db.approvals| ensures db.approvals[a].request != answer.id {
          assert ApprovalOk(s.db, s.db.approvals[a]);
        }
        assert JobOk(db, job);
        Unowned(s, answer.id);
        assert s.history + [] == s.history;
        hide DbInv, Keeps, WorkersOk, HistoryOk, AtMostOnce, Exclusive, JobOk, Reserve;
        Advance(s, s', step.w, Some(Deciding(job)), [], {});
      }
    }
  }

  /** Steps that read the tables and change only the worker's own counter, still owning what it owned. */
  lemma LocalKeeps(s: System, w: nat, next: Option<Worker>)
    requires Inv(s) && w in s.workers
    requires next.Some? ==> WorkerOk(s.db, s.history, next.value) &&
                            (Owned(next.value).Some? ==> Owned(next.value) == Owned(s.workers[w]))
    ensures Inv(Move(s, w, next)) && Framed(s, Move(s, w, next), w)
  {
  }

  lemma JudgeKeeps(s: System, w: nat, ok: bool)
    requires Inv(s) && JudgeNext(s, w, ok).Some?
    ensures Inv(JudgeNext(s, w, ok).value) && Framed(s, JudgeNext(s, w, ok).value, w)
  {
    assert WorkerOk(s.db, s.history, s.workers[w]);
    LocalKeeps(s, w, Some(JudgeNext(s, w, ok).value.workers[w]));
  }

  lemma RefuseKeeps(s: System, w: nat, now: Time)
    requires Inv(s) && RefuseNext(s, w, now).Some?
    ensures Inv(RefuseNext(s, w, now).value) && Framed(s, RefuseNext(s, w, now).value, w)
  {
    var wk := s.workers[w];
    assert WorkerOk(s.db, s.history, wk);
    UpdateRequestKeeps(s.db, wk.rid, wk.status, wk.error, None, now);
    Sole(s, w, wk.rid);
    assert s.history + [] == s.history;
    Advance(s, RefuseNext(s, w, now).value, w, None, [], {wk.rid});
  }

  lemma OpenKeeps(s: System, w: nat, ref: Option<string>)
    requires Inv(s) && OpenNext(s, w, ref).Some?
    ensures Inv(OpenNext(s, w, ref).value) && Framed(s, OpenNext(s, w, ref).value, w)
  {
    assert WorkerOk(s.db, s.history, s.workers[w]);
    LocalKeeps(s, w, Some(OpenNext(s, w, ref).value.workers[w]));
  }

  lemma RecordKeeps(s: System, w: nat, expiresAt: Time)
    requires Inv(s) && RecordNext(s, w, expiresAt).Some?
    ensures Inv(RecordNext(s, w, expiresAt).value) && Framed(s, RecordNext(s, w, expiresAt).value, w)
  {
    var wk := s.workers[w];
    assert WorkerOk(s.db, s.history, wk);
    CreateApprovalKeeps(s.db, wk.rid, wk.ref, expiresAt, wk.digest);
    Sole(s, w, wk.rid);
    assert s.history + [] == s.history;
    Advance(s, RecordNext(s, w, expiresAt).value, w, Some(Parking(wk.rid)), [], {wk.rid});
  }

  lemma ParkKeeps(s: System, w: nat, now: Time)
    requires Inv(s) && ParkNext(s, w, now).Some?
    ensures Inv(ParkNext(s, w, now).value) && Framed(s, ParkNext(s, w, now).value, w)
  {
    var rid := s.workers[w].rid;
    assert WorkerOk(s.db, s.history, s.workers[w]);
    UpdateRequestKeeps(s.db, rid, PendingApproval, None, None, now);
    Sole(s, w, rid);
    assert s.history + [] == s.history;
    Advance(s, ParkNext(s, w, now).value, w, None, [], {rid});
  }

  lemma LookupKeeps(s: System, w: nat, current: Option<ToolOp>)
    requires Inv(s) && LookupNext(s, w, current).Some?
    ensures Inv(LookupNext(s, w, current).value) && Framed(s, LookupNext(s, w, current).value, w)
  {
    assert WorkerOk(s.db, s.history, s.workers[w]);
    LocalKeeps(s, w, Some(LookupNext(s, w, current).value.workers[w]));
  }

  lemma ClaimDirectKeeps(s: System, w: nat, now: Time)
    requires Inv(s) && ClaimDirectNext(s, w, now).Some?
    ensures Inv(ClaimDirectNext(s, w, now).value) && Framed(s, ClaimDirectNext(s, w, now).value, w)
  {
    var wk := s.workers[w];
    var rid := wk.job.rid;
    assert WorkerOk(s.db, s.history, wk);
    Sole(s, w, rid);
    ClaimReceivedKeeps(s.db, rid, Generation(wk.current), Some(wk.job.who), wk.job.digest, now);
    var s' := ClaimDirectNext(s, w, now).value;
    if ClaimReceived(s.db, rid, Generation(wk.current), Some(wk.job.who), wk.job.digest, now).1 {
      DirectRuns(s, wk, now);
      var next := Running(rid, wk.current.value, wk.job.arguments);
      hide DbInv, Keeps, WorkersOk, HistoryOk, AtMostOnce, Exclusive, ClaimReceived, WorkerOk;
      Advance(s, s', w, Some(next), [Claimed(rid)], {rid});
    } else {
      assert s.history + [] == s.history;
      hide DbInv, Keeps, WorkersOk, HistoryOk, AtMostOnce, Exclusive, ClaimReceived, WorkerOk;
      Advance(s, s', w, None, [], {rid});
    }
  }

  /** A direct claim goes on to dispatch the reserved action, and is the first claim of its request. */
  lemma DirectRuns(s: System, wk: Worker, now: Time)
    requires Inv(s) && wk.Claiming? && WorkerOk(s.db, s.history, wk)
    requires ClaimReceived(s.db, wk.job.rid, Generation(wk.current), Some(wk.job.who), wk.job.digest, now).1
    ensures wk.current.Some? && AtMostOnce(s.history + [Claimed(wk.job.rid)])
    ensures var db := ClaimReceived(s.db, wk.job.rid, Generation(wk.current), Some(wk.job.who), wk.job.digest, now).0;
            && EventOk(db, Claimed(wk.job.rid))
            && WorkerOk(db, s.history + [Claimed(wk.job.rid)],
                        Running(wk.job.rid, wk.current.value, wk.job.arguments))
  {
    var rid := wk.job.rid;
    ClaimReceivedKeeps(s.db, rid, Generation(wk.current), Some(wk.job.who), wk.job.digest, now);
    ClaimOnce(s.db, s.history, rid);
    assert (s.history + [Claimed(rid)])[|s.history|] == Claimed(rid);
    var db := ClaimReceived(s.db, rid, Generation(wk.current), Some(wk.job.who), wk.job.digest, now).0;
    assert RowEvolves(s.db.requests[rid], db.requests[rid]);
  }

  // ---- execution ----------------------------------------------------------------------------------

  /** A claimed row that was not dispatched is dispatched once. */
  lemma DispatchOnce(h: seq<Event>, sent: Event)
    requires AtMostOnce(h) && sent.Dispatched? && Claimed(sent.rid) in h && !Spent(h, sent.rid)
    ensures AtMostOnce(h + [sent])
  {
    var h' := h + [sent];
    forall j | 0 <= j < |h'| && h'[j].Dispatched? ensures Claimed(h'[j].rid) in h'[..j] {
      assert h'[..j] == h[..j];
      assert h[..|h|] == h;
    }
  }

  lemma DispatchKeeps(s: System, w: nat)
    requires Inv(s) && DispatchNext(s, w).Some?
    ensures Inv(DispatchNext(s, w).value) && Framed(s, DispatchNext(s, w).value, w)
  {
    var wk := s.workers[w];
    assert WorkerOk(s.db, s.history, wk);
    var sent := Dispatched(wk.rid, wk.toolOp.tool, wk.toolOp.op, wk.toolOp.generation, wk.arguments);
    DispatchOnce(s.history, sent);
    SameTables(s.db);
    Sole(s, w, wk.rid);
    if s.db.requests[wk.rid].status == Executing {
      assert (s.history + [sent])[|s.history|] == sent;
      assert Spent(s.history + [sent], wk.rid);
    }
    hide DbInv, Keeps, WorkersOk, HistoryOk, AtMostOnce, Exclusive, Spent;
    Advance(s, DispatchNext(s, w).value, w, Some(Finishing(wk.rid)), [sent], {});
  }

  /** The claimer's own update of an executing row keeps the tables sound, whatever the tool answered. */
  lemma FinishRow(db: Db, rid: nat, reply: Reply, now: Time)
    requires DbInv(db) && rid < |db.requests| && db.requests[rid].status == Executing
    ensures Keeps(db, UpdateRequest(db, rid, Outcome(reply).0, Outcome(reply).1,
                                    if reply.Returned? then Some(reply.result) else None, now), {rid})
  {
    if HasApproval(db, rid) {
      assert ApprovalOk(db, db.approvals[ApprovalIndex(db.approvals, rid)]);
    }
    UpdateRequestKeeps(db, rid, Outcome(reply).0, Outcome(reply).1,
                       if reply.Returned? then Some(reply.result) else None, now);
  }

  lemma FinishKeeps(s: System, w: nat, reply: Reply, now: Time)
    requires Inv(s) && FinishNext(s, w, reply, now).Some?
    ensures Inv(FinishNext(s, w, reply, now).value) && Framed(s, FinishNext(s, w, reply, now).value, w)
  {
    var rid := s.workers[w].rid;
    assert WorkerOk(s.db, s.history, s.workers[w]);
    Sole(s, w, rid);
    hide DbInv, Keeps, WorkersOk, HistoryOk, AtMostOnce, Exclusive;
    FinishRow(s.db, rid, reply, now);
    hide UpdateRequest;
    assert s.history + [] == s.history;
    Advance(s, FinishNext(s, w, reply, now).value, w, None, [], {rid});
  }

  // ---- the steps of a poll ------------------------------------------------------------------------

  lemma PollKeeps(s: System, step: Step)
    requires Inv(s) && step.Poll? && PollNext(s, step).Some?
    ensures Inv(PollNext(s, step).value) && Framed(s, PollNext(s, step).value, step.w)
  {
    var s' := PollNext(s, step).value;
    SameTables(s.db);
    if s' != s {
      assert RowOk(s.db, s.db.requests[step.rid]);
      assert s.history + [] == s.history;
      Advance(s, s', step.w, Some(s'.workers[step.w]), [], {});
    }
  }

  lemma ReadApprovalKeeps(s: System, w: nat)
    requires Inv(s) && ReadApprovalNext(s, w).Some?
    ensures Inv(ReadApprovalNext(s, w).value) && Framed(s, ReadApprovalNext(s, w).value, w)
  {
    assert WorkerOk(s.db, s.history, s.workers[w]);
    var s' := ReadApprovalNext(s, w).value;
    LocalKeeps(s, w, if w in s'.workers then Some(s'.workers[w]) else None);
  }

  /** What the surface was heard to say adds no claim and no dispatch. */
  lemma HeardOnce(h: seq<Event>, ref: string, outcome: Verdict)
    requires AtMostOnce(h)
    ensures AtMostOnce(h + [Heard(ref, outcome)])
  {
    var h' := h + [Heard(ref, outcome)];
    forall j | 0 <= j < |h'| && h'[j].Dispatched? ensures Claimed(h'[j].rid) in h'[..j] {
      assert h'[..j] == h[..j];
    }
  }

  lemma AskKeeps(s: System, w: nat, state: SurfaceState)
    requires Inv(s) && AskNext(s, w, state).Some?
    ensures Inv(AskNext(s, w, state).value) && Framed(s, AskNext(s, w, state).value, w)
  {
    var wk := s.workers[w];
    assert WorkerOk(s.db, s.history, wk);
    var heard := Heard(wk.app.ref, state.outcome);
    HeardOnce(s.history, wk.app.ref, state.outcome);
    SameTables(s.db);
    hide DbInv, Keeps, WorkersOk, HistoryOk, AtMostOnce, Exclusive, WatchOk, RefOk;
    assert (s.history + [heard])[|s.history|] == heard;
    Advance(s, AskNext(s, w, state).value, w, Some(Hearing(wk.watch, wk.a, wk.app.ref, state)), [heard], {});
  }

  lemma RecheckKeeps(s: System, w: nat, now: Time)
    requires Inv(s) && RecheckNext(s, w, now).Some?
    ensures Inv(RecheckNext(s, w, now).value) && Framed(s, RecheckNext(s, w, now).value, w)
  {
    assert WorkerOk(s.db, s.history, s.workers[w]);
    LocalKeeps(s, w, Some(RecheckNext(s, w, now).value.workers[w]));
  }

  lemma WeighedOk(db: Db, h: seq<Event>, wk: Worker)
    requires wk.Weighing? && WorkerOk(db, h, wk)
    ensures var next := Weighed(db, wk.watch, wk.a, wk.ref, wk.state, wk.at, wk.pending);
            next.Some? ==> WorkerOk(db, h, next.value) && Owned(next.value) == None
  {
  }

  lemma WeighKeeps(s: System, w: nat)
    requires Inv(s) && WeighNext(s, w).Some?
    ensures Inv(WeighNext(s, w).value) && Framed(s, WeighNext(s, w).value, w)
  {
    var wk := s.workers[w];
    WeighedOk(s.db, s.history, wk);
    LocalKeeps(s, w, Weighed(s.db, wk.watch, wk.a, wk.ref, wk.state, wk.at, wk.pending));
  }

  lemma ClaimReviewedKeeps(s: System, w: nat, now: Time)
    requires Inv(s) && ClaimReviewedNext(s, w, now).Some?
    ensures Inv(ClaimReviewedNext(s, w, now).value) && Framed(s, ClaimReviewedNext(s, w, now).value, w)
  {
    var wk := s.workers[w];
    var rid, at := wk.watch.rid, Later(wk.watch.now, now);
    assert WorkerOk(s.db, s.history, wk);
    ClaimApprovalKeeps(s.db, rid, Generation(wk.current), wk.state, at, wk.watch.who);
    var (db, claimed) := ClaimApproval(s.db, rid, Generation(wk.current), wk.state, at, wk.watch.who);
    if claimed {
      GrantedKeeps(s, w, now);
    } else {
      assert s.history + [] == s.history;
      Advance(s, ClaimReviewedNext(s, w, now).value, w, None, [], {});
    }
  }

  lemma GrantedKeeps(s: System, w: nat, now: Time)
    requires Inv(s) && w in s.workers && s.workers[w].Granting?
    requires var wk := s.workers[w];
             ClaimApproval(s.db, wk.watch.rid, Generation(wk.current), wk.state, Later(wk.watch.now, now),
                           wk.watch.who).1
    ensures Inv(ClaimReviewedNext(s, w, now).value) && Framed(s, ClaimReviewedNext(s, w, now).value, w)
  {
    var wk := s.workers[w];
    var rid, at := wk.watch.rid, Later(wk.watch.now, now);
    ClaimApprovalKeeps(s.db, rid, Generation(wk.current), wk.state, at, wk.watch.who);
    GrantedRuns(s, wk, at);
    Unowned(s, rid);
    ClaimOnce(s.db, s.history, rid);
    var next := Running(rid, wk.current.value, wk.watch.row.arguments.GetOr("{}"));
    hide DbInv, WorkersOk, HistoryOk, AtMostOnce, ClaimApproval, WorkerOk;
    Advance(s, ClaimReviewedNext(s, w, now).value, w, Some(next), [Claimed(rid)], {});
  }

  /** A granted claim dispatches what its own snapshot of the pending row holds: the reserved action. */
  lemma GrantedRuns(s: System, wk: Worker, at: Time)
    requires Inv(s) && wk.Granting? && WorkerOk(s.db, s.history, wk)
    requires ClaimApproval(s.db, wk.watch.rid, Generation(wk.current), wk.state, at, wk.watch.who).1
    ensures wk.current.Some?
    ensures var db := ClaimApproval(s.db, wk.watch.rid, Generation(wk.current), wk.state, at, wk.watch.who).0;
            WorkerOk(db, s.history + [Claimed(wk.watch.rid)],
                     Running(wk.watch.rid, wk.current.value, wk.watch.row.arguments.GetOr("{}")))
  {
    var rid := wk.watch.rid;
    ClaimApprovalKeeps(s.db, rid, Generation(wk.current), wk.state, at, wk.watch.who);
    ClaimOnce(s.db, s.history, rid);
    assert (s.history + [Claimed(rid)])[|s.history|] == Claimed(rid);
    var db := ClaimApproval(s.db, rid, Generation(wk.current), wk.state, at, wk.watch.who).0;
    assert RowEvolves(s.db.requests[rid], db.requests[rid]);
  }

  lemma CloseKeeps(s: System, w: nat, now: Time)
    requires Inv(s) && CloseNext(s, w, now).Some?
    ensures Inv(CloseNext(s, w, now).value) && Framed(s, CloseNext(s, w, now).value, w)
  {
    var wk := s.workers[w];
    assert WorkerOk(s.db, s.history, wk);
    var at := if wk.deadlineOnly then wk.now else Later(wk.now, now);
    FinishPendingKeeps(s.db, wk.rid, wk.ending, wk.answer, at, wk.deadlineOnly);
    assert s.history + [] == s.history;
    Advance(s, CloseNext(s, w, now).value, w, None, [], {});
  }

  // ---- crashes and the operator -------------------------------------------------------------------

  lemma CrashKeeps(s: System, w: nat)
    requires Inv(s)
    ensures Inv(Move(s, w, None)) && Framed(s, Move(s, w, None), w)
  {
  }

  lemma AdminEvolves(s: System, admin: Admin, now: Time)
    requires Inv(s) && Administer(s, admin, now).Some? && !admin.ReconcileAll?
    ensures Keeps(s.db, Administer(s, admin, now).value, {})
  {
    var db' := Administer(s, admin, now).value;
    match admin {
      case NewPolicy(caller, policy) => WritePolicyKeeps(s.db, caller, policy, now);
      case SwapPolicy(caller, before, after) =>
        if db' != s.db {
          WritePolicyKeeps(s.db, caller, after, now);
        } else {
          SameTables(s.db);
        }
      case Withdraw(rid) => FinishPendingKeeps(s.db, rid, Ending(Expired, Cancelled, None), None, now, false);
      case SweepRow(rid) => FinishPendingKeeps(s.db, rid, TIMEOUT, None, now, true);
      case PruneAll => PruneKeeps(s.db, now);
      case _ => AuthorityOnly(s.db, db');
    }
  }

  lemma OperateKeeps(s: System, admin: Admin, now: Time)
    requires Inv(s) && OperateNext(s, admin, now).Some?
    ensures var s' := OperateNext(s, admin, now).value;
            && Inv(s') && Evolves(s.db, s'.db) && AnswersPending(s.db, s'.db)
            && (!admin.ReconcileAll? ==> Undisturbed(s.db, s'.db, {}))
  {
    var s' := OperateNext(s, admin, now).value;
    if admin.ReconcileAll? {
      ReconcileKeeps(s.db, now);
      forall i | 0 <= i < |s.history| ensures EventOk(s'.db, s.history[i]) {
        EventFrame(s.db, s'.db, s.history[i]);
      }
    } else {
      AdminEvolves(s, admin, now);
      assert s.history + [] == s.history;
      forall v | v in s.workers ensures WorkerOk(s'.db, s'.history, s.workers[v]) {
        var wk := s.workers[v];
        if Owned(wk).Some? {
          OwnedActive(s.db, s.history, wk);
          assert SameFor(s.db, s'.db, Owned(wk).value);
        }
        WorkerFrame(s.db, s'.db, s.history, [], wk);
      }
      forall i | 0 <= i < |s.history| ensures EventOk(s'.db, s.history[i]) {
        EventFrame(s.db, s'.db, s.history[i]);
      }
    }
  }

  // ---- all steps ----------------------------------------------------------------------------------

  lemma StartOk()
    ensures Inv(START)
  {
  }

  /** What the tables keep over any single step. */
  ghost predicate StepFramed(s: System, step: Step, s': System) {
    && Evolves(s.db, s'.db)
    && AnswersPending(s.db, s'.db)
    && (!(step.Operate? && step.admin.ReconcileAll?) ==>
          Undisturbed(s.db, s'.db, if step.Operate? then {} else Owns(s, step.w)))
  }

  lemma StepKeeps(s: System, step: Step)
    requires Inv(s) && Next(s, step).Some?
    ensures Inv(Next(s, step).value) && StepFramed(s, step, Next(s, step).value)
  {
    hide Inv, Evolves, AnswersPending, Undisturbed, SubmitNext, JudgeNext, RefuseNext, OpenNext, RecordNext, ParkNext,
      LookupNext, ClaimDirectNext, DispatchNext, FinishNext, PollNext, ReadApprovalNext, AskNext, RecheckNext,
      WeighNext, ClaimReviewedNext, CloseNext, OperateNext;
    match step {
      case Submit(_, _, _, _, _, _, _, _, _, _) => SubmitKeeps(s, step);
      case Judge(w, ok) => JudgeKeeps(s, w, ok);
      case Refuse(w, now) => RefuseKeeps(s, w, now);
      case Open(w, ref) => OpenKeeps(s, w, ref);
      case Record(w, expiresAt) => RecordKeeps(s, w, expiresAt);
      case Park(w, now) => ParkKeeps(s, w, now);
      case Lookup(w, current) => LookupKeeps(s, w, current);
      case ClaimDirect(w, now) => ClaimDirectKeeps(s, w, now);
      case Dispatch(w) => DispatchKeeps(s, w);
      case Finish(w, reply, now) => FinishKeeps(s, w, reply, now);
      case Poll(_, _, _, _) => PollKeeps(s, step);
      case ReadApproval(w) => ReadApprovalKeeps(s, w);
      case Ask(w, state) => AskKeeps(s, w, state);
      case Recheck(w, now) => RecheckKeeps(s, w, now);
      case Weigh(w) => WeighKeeps(s, w);
      case ClaimReviewed(w, now) => ClaimReviewedKeeps(s, w, now);
      case Close(w, now) => CloseKeeps(s, w, now);
      case Crash(w) => CrashKeeps(s, w);
      case Operate(admin, now) => OperateKeeps(s, admin, now);
    }
  }
}
