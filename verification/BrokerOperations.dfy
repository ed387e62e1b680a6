/** The loops that end many parked requests at once: the deadline sweep of broker/request_lifecycle.py and the
    revocations of broker/operations.py. Each runs here uninterrupted; module Protocol interleaves their
    single transactions with everything else. */
module BrokerOperations {
  import opened Wrappers
  import opened PolicyRules
  import opened PythonText
  import opened BrokerDb
  import opened BrokerInvariant
  import opened BrokerColumns
  import opened BrokerStore
  import opened Protocol

  // ---- what such a loop does to the tables --------------------------------------------------------

  /** An approval still awaiting an answer, with its request parked on it. */
  predicate Parked(db: Db, a: nat) {
    && a < |db.approvals| && db.approvals[a].status == Awaiting
    && db.approvals[a].request < |db.requests| && db.requests[db.approvals[a].request].status == PendingApproval
  }

  /** The approval of a request is among those the loop visits, and can still be closed. */
  predicate Visited(db: Db, rid: nat, done: set<nat>) {
    ApprovalIndex(db.approvals, rid) in done && Parked(db, ApprovalIndex(db.approvals, rid))
  }

  /** Exactly the visited requests have ended, without payload. */
  ghost predicate ClosedRows(db: Db, rows': seq<Request>, done: set<nat>) {
    && |rows'| == |db.requests|
    && forall r: nat | r < |rows'| ::
         rows'[r] == if Visited(db, r, done) then Ended(db.requests[r], Expired, None, rows'[r].updatedAt)
                     else db.requests[r]
  }

  /** How a loop answers an approval: timed out if the deadline has passed by the reading, else cancelled. */
  function Shut(app: Approval, at: Time): Approval {
    Answered(app, if at >= app.expiresAt then Lapsed else Cancelled, None)
  }

  ghost predicate ClosedAnswers(db: Db, db': Db, done: set<nat>) {
    && |db'.requests| == |db.requests| && |db'.approvals| == |db.approvals|
    && forall a: nat | a < |db.approvals| ::
         db'.approvals[a] == if a in done && Parked(db, a)
                             then Shut(db.approvals[a], db'.requests[db.approvals[a].request].updatedAt)
                             else db.approvals[a]
  }

  /** Exactly the visited pairs have ended, by the reading each request row records. Nothing else differs. */
  ghost predicate Closed(db: Db, db': Db, done: set<nat>) {
    && db'.callers == db.callers && db'.tokens == db.tokens && db'.policies == db.policies
    && ClosedRows(db, db'.requests, done)
    && ClosedAnswers(db, db', done)
  }

  /** Nobody shares an approval row, and nobody shares its request. */
  lemma Unshared(db: Db, a: nat)
    requires DbInv(db) && a < |db.approvals|
    ensures db.approvals[a].request < |db.requests|
    ensures forall r: nat :: ApprovalIndex(db.approvals, r) == a <==> r == db.approvals[a].request
    ensures forall b: nat | b < |db.approvals| && b != a :: db.approvals[b].request != db.approvals[a].request
  {
  }

  /** A pair the loop has not visited yet is as it was. */
  lemma Untouched(db: Db, mid: Db, done: set<nat>, a: nat)
    requires DbInv(db) && Closed(db, mid, done) && a < |db.approvals| && a !in done
    ensures |mid.requests| == |db.requests| && |mid.approvals| == |db.approvals|
    ensures var rid := db.approvals[a].request;
            && rid < |db.requests| && ApprovalIndex(mid.approvals, rid) == a == ApprovalIndex(db.approvals, rid)
            && mid.approvals[a] == db.approvals[a] && mid.requests[rid] == db.requests[rid]
  {
    var rid := db.approvals[a].request;
    Unshared(db, a);
    hide DbInv;
    assert ApprovalIndex(db.approvals, rid) == a;
    IndexStable(db.approvals, mid.approvals, rid);
    assert !Visited(db, rid, done);
  }

  /** What the transaction does to a pair the loop has not visited yet. */
  lemma FinishOne(db: Db, mid: Db, done: set<nat>, a: nat, now: Time, deadlineOnly: bool)
    requires DbInv(db) && Closed(db, mid, done)
    requires a < |db.approvals| && a !in done && db.approvals[a].status == Awaiting
    requires deadlineOnly ==> db.approvals[a].expiresAt <= now
    ensures var rid := db.approvals[a].request;
            var (db', finished) := FinishPending(mid, rid, Verdict(deadlineOnly), None, now, deadlineOnly);
            && rid < |mid.requests| == |db.requests| && a < |mid.approvals| == |db.approvals|
            && finished == Parked(db, a)
            && db' == if finished
                      then mid.(requests := mid.requests[rid := Ended(db.requests[rid], Expired, None, now)],
                                approvals := mid.approvals[a := Shut(db.approvals[a], now)])
                      else mid
  {
    Untouched(db, mid, done, a);
    hide DbInv, Closed, ApprovalIndex;
  }

  /** One more row of the loop. */
  lemma CloseOne(db: Db, mid: Db, done: set<nat>, a: nat, now: Time, deadlineOnly: bool)
    requires DbInv(db) && Closed(db, mid, done)
    requires a < |db.approvals| && a !in done && db.approvals[a].status == Awaiting
    requires deadlineOnly ==> db.approvals[a].expiresAt <= now
    ensures var rid := db.approvals[a].request;
            var (db', finished) := FinishPending(mid, rid, Verdict(deadlineOnly), None, now, deadlineOnly);
            && Closed(db, db', done + {a})
            && finished == Parked(db, a)
            && (forall r: nat | r < |db.requests| && db'.requests[r] != mid.requests[r] ::
                  r == rid && db'.requests[r].updatedAt == now)
  {
    var rid := db.approvals[a].request;
    var db' := FinishPending(mid, rid, Verdict(deadlineOnly), None, now, deadlineOnly).0;
    FinishOne(db, mid, done, a, now, deadlineOnly);
    Unshared(db, a);
    hide DbInv, FinishPending;
    CloseRow(db, mid.requests, db'.requests, done, a, now);
    if Parked(db, a) {
      CloseAnswer(db, mid, db', done, a, now);
    } else {
      assert forall b: nat | b < |db.approvals| :: (b in done + {a} && Parked(db, b)) == (b in done && Parked(db, b));
    }
  }

  lemma CloseRow(db: Db, mid: seq<Request>, rows': seq<Request>, done: set<nat>, a: nat, now: Time)
    requires ClosedRows(db, mid, done) && a < |db.approvals| && a !in done
    requires db.approvals[a].request < |db.requests|
    requires forall r: nat :: ApprovalIndex(db.approvals, r) == a <==> r == db.approvals[a].request
    requires rows' == if Parked(db, a)
                      then mid[db.approvals[a].request :=
                                 Ended(db.requests[db.approvals[a].request], Expired, None, now)]
                      else mid
    ensures ClosedRows(db, rows', done + {a})
  {
  }

  lemma CloseAnswer(db: Db, mid: Db, db': Db, done: set<nat>, a: nat, now: Time)
    requires ClosedAnswers(db, mid, done) && a !in done && Parked(db, a)
    requires forall b: nat | b < |db.approvals| && b != a :: db.approvals[b].request != db.approvals[a].request
    requires db' == mid.(requests := mid.requests[db.approvals[a].request :=
                                       Ended(db.requests[db.approvals[a].request], Expired, None, now)],
                         approvals := mid.approvals[a := Shut(db.approvals[a], now)])
    ensures ClosedAnswers(db, db', done + {a})
  {
  }

  /** The verdict each loop brings: a timeout for the sweep, a cancellation for a revocation. */
  function Verdict(deadlineOnly: bool): Ending {
    if deadlineOnly then TIMEOUT else Ending(Expired, Cancelled, None)
  }

  lemma ClosedNone(db: Db, now: Time)
    ensures Closed(db, db, {}) && StampedBy(db, db, now)
  {
  }

  // ---- the sweep ----------------------------------------------------------------------------------

  predicate Overdue(app: Approval, now: Time) {
    app.status == Awaiting && app.expiresAt <= now
  }

  /** The sweep's worklist: every awaiting approval at or past its deadline, in row order. */
  function OverdueRows(approvals: seq<Approval>, now: Time, from: nat): (rows: seq<nat>)
    requires from <= |approvals|
    ensures forall i | 0 <= i < |rows| :: from <= rows[i] < |approvals| && Overdue(approvals[rows[i]], now)
    ensures forall i, j | 0 <= i < j < |rows| :: rows[i] < rows[j]
    decreases |approvals| - from
  {
    if from == |approvals| then []
    else if Overdue(approvals[from], now) then [from] + OverdueRows(approvals, now, from + 1)
    else OverdueRows(approvals, now, from + 1)
  }

  lemma {:induction false} OverdueListed(approvals: seq<Approval>, now: Time, from: nat, a: nat)
    requires from <= a < |approvals| && Overdue(approvals[a], now)
    ensures a in OverdueRows(approvals, now, from)
    decreases |approvals| - from
  {
    if from < a {
      OverdueListed(approvals, now, from + 1, a);
    }
  }

  /** The due pairs of a sweep at a given reading. */
  function Due(db: Db, now: Time): set<nat> {
    set a | 0 <= a < |db.approvals| && Overdue(db.approvals[a], now) && Parked(db, a)
  }

  /** The transactions of a sweep, one for each listed request. */
  function SweptRows(db: Db, rids: seq<nat>, now: Time): Db {
    if rids == [] then db
    else FinishPending(SweptRows(db, rids[..|rids| - 1], now), rids[|rids| - 1], TIMEOUT, None, now, true).0
  }

  /** They are steps of the machine, whatever its workers are doing. */
  lemma {:induction false} SweepSteps(s: System, rids: seq<nat>, now: Time)
    returns (states: seq<System>, steps: seq<Step>)
    ensures Run(states, steps) && states[0] == s && |steps| == |rids|
    ensures states[|steps|] == s.(db := SweptRows(s.db, rids, now))
    ensures forall i | 0 <= i < |rids| :: steps[i] == Operate(SweepRow(rids[i]), now)
  {
    hide FinishPending;
    if rids == [] {
      states, steps := [s], [];
    } else {
      var n := |rids| - 1;
      states, steps := SweepSteps(s, rids[..n], now);
      var step := Operate(SweepRow(rids[n]), now);
      var last := s.(db := SweptRows(s.db, rids, now));
      assert Next(states[n], step) == Some(last);
      states, steps := states + [last], steps + [step];
      hide Next;
    }
  }

  method SweepExpired(store: Store, now: Time) returns (count: nat, ghost rids: seq<nat>)
    requires DbInv(store.Tables())
    modifies store
    ensures store.Tables() == SweptRows(old(store.Tables()), rids, now)
    ensures Closed(old(store.Tables()), store.Tables(), Due(old(store.Tables()), now))
    ensures StampedBy(old(store.Tables()), store.Tables(), now)
    ensures count == |Due(old(store.Tables()), now)|
  {
    hide Closed, StampedBy, Due, DbInv, Listed, OverdueRows, SweptRows, BrokerDb.FinishPending;
    ghost var db := store.Tables();
    var rows := OverdueRows(store.approvals, now, 0);
    var listed := store.approvals;
    var ids := seq(|rows|, i requires 0 <= i < |rows| => listed[rows[i]].request);
    count := 0;
    rids := ids;
    ClosedNone(db, now);
    SweptNone(db, rows, ids, now);
    for i := 0 to |rows|
      invariant store.Tables() == SweptRows(db, ids[..i], now)
      invariant Closed(db, store.Tables(), Listed(rows, i)) && StampedBy(db, store.Tables(), now)
      invariant count == |Listed(rows, i) * Due(db, now)|
    {
      ListedNext(rows, i);
      SweptNext(db, ids, i, now);
      SweepOne(db, store.Tables(), Listed(rows, i), rows[i], now);
      var finished := store.FinishPending(ids[i], TIMEOUT, None, now, true);
      if finished {
        count := count + 1;
      }
    }
    assert ids[..|rows|] == ids;
    SweepDone(db, store.Tables(), rows, now);
  }

  ghost function Listed(rows: seq<nat>, n: nat): set<nat>
    requires n <= |rows|
  {
    set k | 0 <= k < n :: rows[k]
  }

  lemma SweptNone(db: Db, rows: seq<nat>, rids: seq<nat>, now: Time)
    ensures Listed(rows, 0) == {} && SweptRows(db, rids[..0], now) == db
  {
  }

  lemma SweptNext(db: Db, rids: seq<nat>, n: nat, now: Time)
    requires n < |rids|
    ensures SweptRows(db, rids[..n + 1], now)
         == FinishPending(SweptRows(db, rids[..n], now), rids[n], TIMEOUT, None, now, true).0
  {
    hide FinishPending;
    assert rids[..n + 1][..n] == rids[..n];
  }

  lemma ListedNext(rows: seq<nat>, n: nat)
    requires n < |rows| && forall i, j | 0 <= i < j < |rows| :: rows[i] < rows[j]
    ensures rows[n] !in Listed(rows, n) && Listed(rows, n + 1) == Listed(rows, n) + {rows[n]}
  {
  }

  lemma SweepDone(db: Db, db': Db, rows: seq<nat>, now: Time)
    requires rows == OverdueRows(db.approvals, now, 0) && Closed(db, db', Listed(rows, |rows|))
    ensures Closed(db, db', Due(db, now)) && Listed(rows, |rows|) * Due(db, now) == Due(db, now)
  {
    var done := Listed(rows, |rows|);
    forall a | a in Due(db, now) ensures a in done {
      OverdueListed(db.approvals, now, 0, a);
    }
    ClosedSame(db, db', done, Due(db, now));
  }

  lemma SweepOne(db: Db, mid: Db, done: set<nat>, a: nat, now: Time)
    requires DbInv(db) && Closed(db, mid, done) && StampedBy(db, mid, now)
    requires a < |db.approvals| && a !in done && Overdue(db.approvals[a], now)
    ensures var (db', finished) := FinishPending(mid, db.approvals[a].request, TIMEOUT, None, now, true);
            && Closed(db, db', done + {a}) && StampedBy(db, db', now)
            && |(done + {a}) * Due(db, now)| == |done * Due(db, now)| + (if finished then 1 else 0)
  {
    CloseOne(db, mid, done, a, now, true);
    hide DbInv, Closed, FinishPending;
    DueNext(db, done, a, now);
  }

  lemma DueNext(db: Db, done: set<nat>, a: nat, now: Time)
    requires a < |db.approvals| && a !in done && Overdue(db.approvals[a], now)
    ensures |(done + {a}) * Due(db, now)| == |done * Due(db, now)| + (if Parked(db, a) then 1 else 0)
  {
    assert (done + {a}) * Due(db, now) == if Parked(db, a) then done * Due(db, now) + {a} else done * Due(db, now);
  }

  /** Every request row that differs carries the reading as its update time. */
  ghost predicate StampedBy(db: Db, db': Db, now: Time) {
    && |db'.requests| == |db.requests|
    && forall r: nat | r < |db.requests| && db'.requests[r] != db.requests[r] :: db'.requests[r].updatedAt == now
  }

  /** Only parked pairs matter to what a loop closes. */
  lemma ClosedSame(db: Db, db': Db, done: set<nat>, due: set<nat>)
    requires Closed(db, db', done)
    requires forall a | a in done && Parked(db, a) :: a in due
    requires due <= done
    ensures Closed(db, db', due)
  {
  }

  /** An uninterrupted sweep leaves no parked request at or past its deadline, records a timeout for each it
      ended, and touches no other request. */
  lemma SweptClean(db: Db, db': Db, now: Time, r: nat)
    requires DbInv(db) && Closed(db, db', Due(db, now)) && r < |db.requests|
    requires StampedBy(db, db', now)
    ensures db'.requests[r].status == PendingApproval ==>
              HasApproval(db', r) && db'.approvals[ApprovalIndex(db'.approvals, r)].expiresAt > now
    ensures db'.requests[r] != db.requests[r] ==>
              && db.requests[r].status == PendingApproval && HasApproval(db, r)
              && db.approvals[ApprovalIndex(db.approvals, r)].expiresAt <= now
              && db'.requests[r] == Ended(db.requests[r], Expired, None, now)
              && db'.approvals[ApprovalIndex(db.approvals, r)].status == Lapsed
  {
    if db.requests[r].status == PendingApproval {
      var a := ApprovalIndex(db.approvals, r);
      assert HasApproval(db, r) && ApprovalOk(db, db.approvals[a]);
      IndexStable(db.approvals, db'.approvals, r);
      if a in Due(db, now) {
        assert Visited(db, r, Due(db, now));
      }
    }
  }

  // ---- revocation ---------------------------------------------------------------------------------

  /** The worklist of a cancellation: every awaiting approval of a caller's requests. */
  predicate Theirs(db: Db, a: nat, callers: set<nat>) {
    && a < |db.approvals| && db.approvals[a].status == Awaiting
    && db.approvals[a].request < |db.requests| && db.requests[db.approvals[a].request].bound.caller in callers
  }

  function CallerRows(db: Db, caller: nat, from: nat): (rows: seq<nat>)
    requires from <= |db.approvals|
    ensures forall i | 0 <= i < |rows| :: from <= rows[i] < |db.approvals| && Theirs(db, rows[i], {caller})
    ensures forall i, j | 0 <= i < j < |rows| :: rows[i] < rows[j]
    decreases |db.approvals| - from
  {
    if from == |db.approvals| then []
    else if Theirs(db, from, {caller}) then [from] + CallerRows(db, caller, from + 1)
    else CallerRows(db, caller, from + 1)
  }

  lemma {:induction false} CallerRowListed(db: Db, caller: nat, from: nat, a: nat)
    requires from <= a && Theirs(db, a, {caller})
    ensures a in CallerRows(db, caller, from)
    decreases |db.approvals| - from
  {
    if from < a {
      CallerRowListed(db, caller, from + 1, a);
    }
  }

  /** The parked pairs of some callers. */
  function ParkedOf(db: Db, callers: set<nat>): set<nat> {
    set a | 0 <= a < |db.approvals| && Theirs(db, a, callers) && Parked(db, a)
  }

  lemma CancelOne(db: Db, mid: Db, done: set<nat>, a: nat, now: Time, caller: nat)
    requires DbInv(db) && Closed(db, mid, done)
    requires Theirs(db, a, {caller}) && a !in done
    ensures var (db', finished) := FinishPending(mid, db.approvals[a].request, Ending(Expired, Cancelled, None), None,
                                                 now, false);
            && Closed(db, db', done + {a})
            && |(done + {a}) * ParkedOf(db, {caller})| == |done * ParkedOf(db, {caller})| + (if finished then 1 else 0)
  {
    CloseOne(db, mid, done, a, now, false);
    hide DbInv, FinishPending;
    assert (done + {a}) * ParkedOf(db, {caller})
        == if Parked(db, a) then done * ParkedOf(db, {caller}) + {a} else done * ParkedOf(db, {caller});
  }

  lemma CancelDone(db: Db, db': Db, rows: seq<nat>, done: set<nat>, caller: nat)
    requires Closed(db, db', done) && rows == CallerRows(db, caller, 0)
    requires forall k | 0 <= k < |rows| :: rows[k] in done
    requires forall a | a in done :: Theirs(db, a, {caller})
    ensures Closed(db, db', ParkedOf(db, {caller})) && done * ParkedOf(db, {caller}) == ParkedOf(db, {caller})
  {
    forall a | a in ParkedOf(db, {caller}) ensures a in done {
      CallerRowListed(db, caller, 0, a);
    }
    ClosedSame(db, db', done, ParkedOf(db, {caller}));
  }

  /** Ends every parked request of a caller, each at its own reading of the clock. */
  method CancelPendingApprovals(store: Store, caller: nat) returns (cancelled: nat)
    requires DbInv(store.Tables())
    modifies store
    ensures Closed(old(store.Tables()), store.Tables(), ParkedOf(old(store.Tables()), {caller}))
    ensures cancelled == |ParkedOf(old(store.Tables()), {caller})|
  {
    hide Closed, ParkedOf, Theirs, DbInv, BrokerDb.FinishPending;
    ghost var db := store.Tables();
    var rows := CallerRows(store.Tables(), caller, 0);
    var listed := store.approvals;
    var ids := seq(|rows|, i requires 0 <= i < |rows| => listed[rows[i]].request);
    cancelled := 0;
    ghost var done: set<nat> := {};
    ClosedNone(db, 0.0);
    for i := 0 to |rows|
      invariant forall k | 0 <= k < i :: rows[k] in done
      invariant forall a | a in done :: Theirs(db, a, {caller})
      invariant forall a, k | a in done && i <= k < |rows| :: a < rows[k]
      invariant Closed(db, store.Tables(), done)
      invariant cancelled == |done * ParkedOf(db, {caller})|
    {
      var now: Time := *;
      CancelOne(db, store.Tables(), done, rows[i], now, caller);
      var finished := store.FinishPending(ids[i], Ending(Expired, Cancelled, None), None, now, false);
      if finished {
        cancelled := cancelled + 1;
      }
      done := done + {rows[i]};
    }
    CancelDone(db, store.Tables(), rows, done, caller);
  }

  /** Closing parked pairs keeps the tables sound. */
  lemma ClosedKeeps(db: Db, db': Db, done: set<nat>)
    requires DbInv(db) && Closed(db, db', done)
    ensures DbInv(db')
  {
    forall i | 0 <= i < |db.requests|
      ensures RowEvolves(db.requests[i], db'.requests[i]) && RowOk(db', db'.requests[i])
    {
      assert RowOk(db, db.requests[i]);
    }
    forall a | 0 <= a < |db.approvals|
      ensures ApprovalEvolves(db.approvals[a], db'.approvals[a])
      ensures db.approvals[a].request < |db.requests|
      ensures Coupled(db'.approvals[a].status, db'.requests[db.approvals[a].request].status)
    {
      assert ApprovalOk(db, db.approvals[a]);
      TheApproval(db, a);
    }
    InPlace(db, db');
  }

  /** After a cancellation none of the caller's requests is parked, and no other caller's request changed. */
  lemma NothingParked(db: Db, db': Db, callers: set<nat>, r: nat)
    requires DbInv(db) && Closed(db, db', ParkedOf(db, callers)) && r < |db.requests|
    ensures db.requests[r].bound.caller in callers ==> db'.requests[r].status != PendingApproval
    ensures db.requests[r].bound.caller !in callers ==> db'.requests[r] == db.requests[r]
  {
    if db.requests[r].status == PendingApproval {
      var a := ApprovalIndex(db.approvals, r);
      assert HasApproval(db, r) && ApprovalOk(db, db.approvals[a]);
      if db.requests[r].bound.caller in callers {
        assert a in ParkedOf(db, callers) && Visited(db, r, ParkedOf(db, callers));
      }
    }
  }

  /** None answers an unknown name, which changes nothing. */
  method RevokeCaller(store: Store, name: string, now: Time) returns (cancelled: Option<nat>)
    requires DbInv(store.Tables())
    modifies store
    ensures var db := old(store.Tables()); var id := NameIndex(db.callers, name);
            if id == |db.callers| then cancelled == None && store.Tables() == db
            else
              var revoked := BrokerDb.RevokeCaller(db, name, now);
              && CallerRevoked(store.Tables(), id)
              && Closed(revoked, store.Tables(), ParkedOf(revoked, {id}))
              && cancelled == Some(|ParkedOf(revoked, {id})|)
    ensures DbInv(store.Tables())
  {
    ghost var db := store.Tables();
    var id := NameIndex(store.callers, name);
    if id == |store.callers| {
      return None;
    }
    store.RevokeCaller(name, now);
    ghost var revoked := store.Tables();
    AuthorityOnly(db, revoked);
    var count := CancelPendingApprovals(store, id);
    ClosedKeeps(revoked, store.Tables(), ParkedOf(revoked, {id}));
    return Some(count);
  }

  /** Two cancellations in a row are one over both callers. */
  lemma ClosedTwice(db: Db, mid: Db, db': Db, callers: set<nat>, caller: nat)
    requires DbInv(db) && Closed(db, mid, ParkedOf(db, callers)) && Closed(mid, db', ParkedOf(mid, {caller}))
    requires caller !in callers
    ensures Closed(db, db', ParkedOf(db, callers + {caller}))
  {
    forall a: nat | a < |db.approvals|
      ensures mid.approvals[a].request == db.approvals[a].request < |db.requests|
      ensures a in ParkedOf(mid, {caller}) <==> a in ParkedOf(db, {caller})
      ensures a in ParkedOf(db, callers + {caller}) <==> a in ParkedOf(db, callers) || a in ParkedOf(db, {caller})
    {
      Unshared(db, a);
    }
    forall r: nat | r < |db.requests|
      ensures ApprovalIndex(mid.approvals, r) < |mid.approvals| ==>
                ApprovalIndex(db.approvals, r) == ApprovalIndex(mid.approvals, r)
      ensures Visited(mid, r, ParkedOf(mid, {caller})) == Visited(db, r, ParkedOf(db, {caller}))
    {
      if ApprovalIndex(mid.approvals, r) < |mid.approvals| {
        IndexStable(mid.approvals, db.approvals, r);
      } else if ApprovalIndex(db.approvals, r) < |db.approvals| {
        IndexStable(db.approvals, mid.approvals, r);
      }
    }
  }

  predicate HexPrefix(prefix: string) {
    12 <= |prefix| <= 64 && forall c | c in prefix :: '0' <= c <= '9' || 'a' <= c <= 'f'
  }

  function Matching(db: Db, prefix: string): set<string> {
    set hash | hash in db.tokens && prefix <= hash
  }

  /** Callers owning a matching token, revoked or not, that are left without any. */
  function Tokenless(db: Db, prefix: string): set<nat> {
    Unserved(db, set hash | hash in db.tokens && prefix <= hash :: db.tokens[hash].caller)
  }

  /** Those of the callers that have no live token. */
  function Unserved(db: Db, callers: set<nat>): set<nat> {
    set c | c in callers && !HasActiveToken(db, c)
  }

  /** A prefix is 12 to 64 lower-case hexadecimal digits and matches the hashes that begin with it; tokenless are the
      owners of those hashes who have no live token. */
  lemma PrefixExactly(db: Db, prefix: string)
    ensures HexPrefix(prefix) <==>
              11 < |prefix| < 65 && forall i | 0 <= i < |prefix| ::
                var n := prefix[i] as int; 48 <= n < 58 || 97 <= n < 103
    ensures forall hash :: hash in Matching(db, prefix) <==>
              hash in db.tokens && |prefix| <= |hash| && hash[..|prefix|] == prefix
    ensures forall c :: c in Tokenless(db, prefix) <==>
              && (exists hash | hash in Matching(db, prefix) :: db.tokens[hash].caller == c)
              && forall hash | hash in db.tokens :: !LiveToken(db, hash, c)
  {
    forall c ensures HasActiveToken(db, c) <==> exists hash | hash in db.tokens :: LiveToken(db, hash, c) {
    }
    assert forall i | 0 <= i < |prefix| :: prefix[i] in prefix;
  }

  /** Revokes every token under a prefix and ends the parked requests of exactly the callers this leaves with
      no live token. A blank prefix revokes nothing; None answers any other prefix that is not 12 to 64
      lower-case hexadecimal characters. */
  method RevokeToken(store: Store, prefix: string, now: Time) returns (count: Option<nat>)
    requires DbInv(store.Tables())
    modifies store
    ensures !HexPrefix(prefix) ==>
              count == (if Blank(prefix) then Some(0) else None) && store.Tables() == old(store.Tables())
    ensures HexPrefix(prefix) ==>
              var db := old(store.Tables());
              var hit := set hash | hash in Matching(db, prefix) && db.tokens[hash].revokedAt.None?;
              var revoked := RevokeTokens(db, Matching(db, prefix), now);
              && count == Some(|hit|)
              && (hit != {} ==> Closed(revoked, store.Tables(), ParkedOf(revoked, Tokenless(revoked, prefix))))
              && (hit == {} ==> store.Tables() == revoked == db)
  {
    if Blank(prefix) {
      assert prefix == [] || prefix[0] in prefix;
      return Some(0);
    }
    if !HexPrefix(prefix) {
      return None;
    }
    ghost var db := store.Tables();
    var matching := Matching(store.Tables(), prefix);
    var hit := set hash | hash in matching && store.tokens[hash].revokedAt.None?;
    store.RevokeTokens(matching, now);
    ghost var revoked := store.Tables();
    AuthorityOnly(db, revoked);
    count := Some(|hit|);
    if hit != {} {
      CancelTokenless(store, set hash | hash in matching :: store.tokens[hash].caller);
      assert (set hash | hash in matching :: revoked.tokens[hash].caller)
          == set hash | hash in revoked.tokens && prefix <= hash :: revoked.tokens[hash].caller;
    } else {
      forall h | h in db.tokens ensures revoked.tokens[h] == db.tokens[h] {
        assert h !in hit;
      }
      assert revoked.tokens == db.tokens;
    }
  }

  /** Of the given callers, those without a live token have their parked requests ended. */
  method CancelTokenless(store: Store, callers: set<nat>)
    requires DbInv(store.Tables())
    modifies store
    ensures var db := old(store.Tables());
            Closed(db, store.Tables(), ParkedOf(db, Unserved(db, callers)))
    ensures DbInv(store.Tables())
  {
    ghost var db := store.Tables();
    var todo := callers;
    ghost var done := {};
    ClosedNoneOf(db);
    while todo != {}
      invariant todo <= callers && done == Unserved(db, callers - todo)
      invariant store.tokens == db.tokens
      invariant DbInv(store.Tables()) && Closed(db, store.Tables(), ParkedOf(db, done))
    {
      var c :| c in todo;
      ghost var mid := store.Tables();
      UnservedNext(db, mid, callers, todo, c);
      todo := todo - {c};
      hide DbInv, ParkedOf, Closed, Unserved, HasActiveToken;
      if !HasActiveToken(store.Tables(), c) {
        var _ := CancelPendingApprovals(store, c);
        CancelledToo(db, mid, store.Tables(), done, c);
        done := done + {c};
      }
    }
    assert callers - {} == callers;
  }

  lemma ClosedNoneOf(db: Db)
    ensures Closed(db, db, ParkedOf(db, {}))
  {
  }

  lemma UnservedNext(db: Db, mid: Db, callers: set<nat>, todo: set<nat>, c: nat)
    requires mid.tokens == db.tokens && c in todo && todo <= callers
    ensures HasActiveToken(mid, c) == HasActiveToken(db, c) && c !in Unserved(db, callers - todo)
    ensures Unserved(db, callers - (todo - {c}))
         == Unserved(db, callers - todo) + if HasActiveToken(db, c) then {} else {c}
  {
  }

  lemma CancelledToo(db: Db, mid: Db, db': Db, callers: set<nat>, caller: nat)
    requires DbInv(db) && Closed(db, mid, ParkedOf(db, callers)) && Closed(mid, db', ParkedOf(mid, {caller}))
    requires DbInv(mid) && caller !in callers
    ensures Closed(db, db', ParkedOf(db, callers + {caller})) && DbInv(db') && db'.tokens == mid.tokens
  {
    hide DbInv, ParkedOf;
    ClosedTwice(db, mid, db', callers, caller);
    ClosedKeeps(mid, db', ParkedOf(mid, {caller}));
  }

  /** Adds the fresh token before it revokes the others, so the caller is never without one. */
  method RotateToken(store: Store, name: string, hash: string, now: Time) returns (found: bool)
    requires hash !in store.tokens
    modifies store
    ensures found == (NameIndex(old(store.callers), name) < |old(store.callers)|)
    ensures !found ==> store.Tables() == old(store.Tables())
    ensures found ==>
              var caller := NameIndex(old(store.callers), name);
              && (forall h :: h in store.tokens && store.tokens[h] == TokenRow(caller, None) <==> h == hash)
              && (forall h | h in old(store.tokens) ::
                    && h in store.tokens && store.tokens[h].caller == old(store.tokens)[h].caller
                    && (old(store.tokens)[h].caller != caller || old(store.tokens)[h].revokedAt.Some? ==>
                          store.tokens[h] == old(store.tokens)[h]))
    ensures store.requests == old(store.requests) && store.approvals == old(store.approvals)
  {
    var caller := NameIndex(store.callers, name);
    if caller == |store.callers| {
      return false;
    }
    var ok := store.AddToken(caller, hash);
    assert store.tokens[hash] == TokenRow(caller, None);
    assert HasActiveToken(store.Tables(), caller);
    var others := set h | h in store.tokens && store.tokens[h].caller == caller && h != hash;
    store.RevokeTokens(others, now);
    assert store.tokens[hash] == TokenRow(caller, None);
    assert HasActiveToken(store.Tables(), caller);
    return true;
  }
}
