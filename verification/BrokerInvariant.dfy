/** What every transaction of BrokerDb keeps about the tables, whatever calls it. */
module BrokerInvariant {
  import opened Wrappers
  import opened PolicyRules
  import opened BrokerDb

  // ---- the table invariant ------------------------------------------------------------------------

  /** The digests a row is bound to cover exactly its own columns. */
  ghost predicate Faithful(b: Bound) {
    var a := b.digest.action;
    && a.caller == b.caller && a.tool == b.tool && a.op == b.op && a.generation == b.generation
    && b.payload == Payload(b.tool, b.op, a.arguments, a.reason)
  }

  /** Private payload exists exactly while the request can still act on it, and no outcome is recorded before. */
  ghost predicate PayloadKept(row: Request) {
    if Terminal(row.status) then row.arguments == None && row.action == None
    else
      && row.arguments == Some(row.bound.digest.action.arguments) && row.action == Some(row.bound.digest.action)
      && row.error == None && row.result == None
  }

  ghost predicate RowOk(db: Db, row: Request) {
    && row.bound.caller < |db.callers|
    && Faithful(row.bound)
    && PayloadKept(row)
  }

  /** Which request status may stand beside each approval status. */
  ghost predicate Coupled(answer: ApprovalStatus, status: Status) {
    match answer
    case Awaiting => status in {Received, PendingApproval, Unknown}
    case Approved => status in {Executing, Completed, Failed, Unknown, ResultExpired}
    case Rejected => status == Denied
    case Lapsed => status == Expired
    case Cancelled => status in {Expired, Denied, Unknown}
  }

  ghost predicate ApprovalOk(db: Db, app: Approval) {
    && app.request < |db.requests|
    && app.digest == db.requests[app.request].bound.digest
    && Coupled(app.status, db.requests[app.request].status)
  }

  ghost predicate HasApproval(db: Db, rid: nat) {
    ApprovalIndex(db.approvals, rid) < |db.approvals|
  }

  ghost predicate SameKey(b: Bound, c: Bound) {
    b.key.Some? && b.key == c.key && b.caller == c.caller
  }

  ghost predicate RowsOk(db: Db) {
    forall i | 0 <= i < |db.requests| :: RowOk(db, db.requests[i])
  }

  ghost predicate KeysOk(db: Db) {
    forall i, j | 0 <= i < j < |db.requests| :: !SameKey(db.requests[i].bound, db.requests[j].bound)
  }

  ghost predicate ApprovalsOk(db: Db) {
    forall a | 0 <= a < |db.approvals| :: ApprovalOk(db, db.approvals[a])
  }

  ghost predicate OneApproval(db: Db) {
    forall a, b | 0 <= a < b < |db.approvals| :: db.approvals[a].request != db.approvals[b].request
  }

  ghost predicate PendingHasApproval(db: Db) {
    forall i: nat | i < |db.requests| && db.requests[i].status == PendingApproval :: HasApproval(db, i)
  }

  ghost predicate DbInv(db: Db) {
    RowsOk(db) && KeysOk(db) && ApprovalsOk(db) && OneApproval(db) && PendingHasApproval(db)
  }

  // ---- how tables may change ----------------------------------------------------------------------

  /** Bound columns never change and a status only moves down its path; a terminal one stays, except that a
      pruned completion says its result expired. */
  ghost predicate RowEvolves(r: Request, r': Request) {
    && r'.bound == r.bound
    && (r'.status == r.status || Rank(r'.status) < Rank(r.status))
    && (Terminal(r.status) && r'.status != r.status ==> r.status == Completed && r'.status == ResultExpired)
  }

  ghost predicate ApprovalEvolves(a: Approval, a': Approval) {
    && a'.request == a.request && a'.ref == a.ref && a'.digest == a.digest && a'.expiresAt == a.expiresAt
    && (a.status != Awaiting ==> a'.status == a.status)
  }

  ghost predicate AuthorityShrinks(db: Db, db': Db) {
    && |db.callers| <= |db'.callers|
    && (forall c | 0 <= c < |db.callers| && db.callers[c].revokedAt.Some? :: db'.callers[c].revokedAt.Some?)
    && (forall h | h in db.tokens ::
          && h in db'.tokens && db'.tokens[h].caller == db.tokens[h].caller
          && (db.tokens[h].revokedAt.Some? ==> db'.tokens[h].revokedAt.Some?))
  }

  /** Nothing is deleted or rebound, no status climbs, no revocation is undone. */
  ghost predicate Evolves(db: Db, db': Db) {
    && AuthorityShrinks(db, db')
    && |db.requests| <= |db'.requests|
    && (forall i | 0 <= i < |db.requests| :: RowEvolves(db.requests[i], db'.requests[i]))
    && |db.approvals| <= |db'.approvals|
    && (forall a | 0 <= a < |db.approvals| :: ApprovalEvolves(db.approvals[a], db'.approvals[a]))
  }

  lemma EvolvesTransitive(a: Db, b: Db, c: Db)
    requires Evolves(a, b) && Evolves(b, c)
    ensures Evolves(a, c)
  {
  }

  /** A request's own row and its approval rows are exactly as they were. */
  ghost predicate SameFor(db: Db, db': Db, rid: nat) {
    && rid < |db.requests| <= |db'.requests| && db'.requests[rid] == db.requests[rid]
    && |db.approvals| <= |db'.approvals|
    && (forall a | 0 <= a < |db'.approvals| && db'.approvals[a].request == rid ::
          a < |db.approvals| && db'.approvals[a] == db.approvals[a])
  }

  /** Only the given requests may change while they are received or executing. */
  ghost predicate Undisturbed(db: Db, db': Db, but: set<nat>) {
    forall rid: nat | rid < |db.requests| && db.requests[rid].status in {Received, Executing} && rid !in but ::
      SameFor(db, db', rid)
  }

  /** An approval is answered only together with its pending request. */
  ghost predicate AnswersPending(db: Db, db': Db) {
    forall a | 0 <= a < |db.approvals| && a < |db'.approvals| && db'.approvals[a].status != db.approvals[a].status ::
      db.approvals[a].request < |db.requests| && db.requests[db.approvals[a].request].status == PendingApproval
  }

  /** The frame a transaction keeps; `but` names the received or executing rows it may touch. */
  ghost predicate Keeps(db: Db, db': Db, but: set<nat>) {
    DbInv(db') && Evolves(db, db') && Undisturbed(db, db', but) && AnswersPending(db, db')
  }

  // ---- proof tools --------------------------------------------------------------------------------

  lemma IndexStable(apps: seq<Approval>, apps': seq<Approval>, rid: nat)
    requires |apps| <= |apps'|
    requires forall a | 0 <= a < |apps| :: apps'[a].request == apps[a].request
    requires ApprovalIndex(apps, rid) < |apps|
    ensures ApprovalIndex(apps', rid) == ApprovalIndex(apps, rid)
  {
  }

  lemma IndexAppended(apps: seq<Approval>, app: Approval, rid: nat)
    requires ApprovalIndex(apps, rid) == |apps|
    ensures ApprovalIndex(apps + [app], rid) == if app.request == rid then |apps| else |apps| + 1
  {
    var more := apps + [app];
    assert more[|apps|] == app;
    assert forall x | 0 <= x < |apps| :: more[x].request != rid;
    assert ApprovalIndex(more, rid) >= |apps|;
  }

  /** The one approval row a request can have is the one the query finds. */
  lemma TheApproval(db: Db, a: nat)
    requires OneApproval(db) && a < |db.approvals|
    ensures ApprovalIndex(db.approvals, db.approvals[a].request) == a
  {
  }

  /** Rows updated in place keep the invariant when each updated row and pair does. */
  lemma InPlace(db: Db, db': Db)
    requires DbInv(db) && Evolves(db, db')
    requires |db'.requests| == |db.requests| && |db'.approvals| == |db.approvals|
    requires RowsOk(db')
    requires forall a | 0 <= a < |db.approvals| ::
               db.approvals[a].request < |db.requests|
               && Coupled(db'.approvals[a].status, db'.requests[db.approvals[a].request].status)
    requires forall i: nat | i < |db.requests| && db'.requests[i].status == PendingApproval :: HasApproval(db, i)
    ensures DbInv(db')
  {
  }

  /** One request row, and at most its own approval row, take a new status. */
  lemma OneRow(db: Db, db': Db, rid: nat)
    requires DbInv(db) && rid < |db.requests|
    requires db'.callers == db.callers && db'.tokens == db.tokens
    requires |db'.requests| == |db.requests| && |db'.approvals| == |db.approvals|
    requires forall i | 0 <= i < |db.requests| && i != rid :: db'.requests[i] == db.requests[i]
    requires RowEvolves(db.requests[rid], db'.requests[rid]) && PayloadKept(db'.requests[rid])
    requires forall a | 0 <= a < |db.approvals| && db.approvals[a].request != rid ::
               db'.approvals[a] == db.approvals[a]
    requires forall a | 0 <= a < |db.approvals| && db.approvals[a].request == rid ::
               ApprovalEvolves(db.approvals[a], db'.approvals[a])
               && Coupled(db'.approvals[a].status, db'.requests[rid].status)
               && (db'.approvals[a].status != db.approvals[a].status ==> db.requests[rid].status == PendingApproval)
    requires db'.requests[rid].status == PendingApproval ==> HasApproval(db, rid)
    ensures Keeps(db, db', {rid})
  {
    assert forall i | 0 <= i < |db.requests| :: RowOk(db, db.requests[i]);
    assert RowsOk(db');
    forall a | 0 <= a < |db.approvals|
      ensures db.approvals[a].request < |db.requests|
      ensures Coupled(db'.approvals[a].status, db'.requests[db.approvals[a].request].status)
      ensures ApprovalEvolves(db.approvals[a], db'.approvals[a])
    {
      assert ApprovalOk(db, db.approvals[a]);
    }
    assert Evolves(db, db');
    InPlace(db, db');
  }

  // ---- callers, tokens, policies ------------------------------------------------------------------

  lemma AuthorityOnly(db: Db, db': Db)
    requires DbInv(db) && AuthorityShrinks(db, db')
    requires db'.requests == db.requests && db'.approvals == db.approvals
    ensures Keeps(db, db', {})
  {
  }

  lemma WritePolicyKeeps(db: Db, caller: nat, policy: Policy, now: Time)
    requires DbInv(db)
    ensures Keeps(db, WritePolicy(db, caller, policy, now), {})
  {
    var db' := WritePolicy(db, caller, policy, now);
    forall i | 0 <= i < |db.requests|
      ensures RowEvolves(db.requests[i], db'.requests[i]) && RowOk(db', db'.requests[i])
    {
      assert RowOk(db, db.requests[i]);
    }
    forall a | 0 <= a < |db.approvals|
      ensures ApprovalEvolves(db.approvals[a], db'.approvals[a])
      ensures db.approvals[a].request < |db.requests|
      ensures Coupled(db'.approvals[a].status, db'.requests[db.approvals[a].request].status)
    {
      assert ApprovalOk(db, db.approvals[a]);
    }
    InPlace(db, db');
    forall rid: nat | rid < |db.requests| && db.requests[rid].status in {Received, Executing}
      ensures SameFor(db, db', rid)
    {
    }
  }

  // ---- requests and approvals ---------------------------------------------------------------------

  lemma ReserveKeeps(db: Db, who: Principal, tool: string, op: string, arguments: string, reason: Option<string>,
                     generation: string, key: Option<string>, nonce: string, now: Time)
    requires DbInv(db)
    ensures var (db', answer) := Reserve(db, who, tool, op, arguments, reason, generation, key, nonce, now);
            && Keeps(db, db', {})
            && (answer.Receipt? && answer.created ==>
                  && answer.id == |db.requests| && |db'.requests| == answer.id + 1
                  && db'.approvals == db.approvals
                  && db'.requests[answer.id]
                  == NewRequest(db, who, tool, op, arguments, reason, generation, key, nonce, now))
            && (!(answer.Receipt? && answer.created) ==> db' == db)
  {
    var (db', answer) := Reserve(db, who, tool, op, arguments, reason, generation, key, nonce, now);
    if answer.Receipt? && answer.created {
      AppendedRequest(db, NewRequest(db, who, tool, op, arguments, reason, generation, key, nonce, now));
    } else {
      AuthorityOnly(db, db);
    }
  }

  lemma AppendedRequest(db: Db, row: Request)
    requires DbInv(db) && RowOk(db, row) && row.status == Received
    requires row.bound.key.Some? ==>
               KeyIndex(db.requests, row.bound.caller, row.bound.key.value) == |db.requests|
    ensures Keeps(db, db.(requests := db.requests + [row]), {})
  {
    var db' := db.(requests := db.requests + [row]);
    var n := |db.requests|;
    assert db'.requests[n] == row && forall i | 0 <= i < n :: db'.requests[i] == db.requests[i];
    forall i | 0 <= i < |db'.requests| ensures RowOk(db', db'.requests[i]) {
      assert i < n ==> RowOk(db, db'.requests[i]);
    }
    forall i, j | 0 <= i < j < |db'.requests| ensures !SameKey(db'.requests[i].bound, db'.requests[j].bound) {
      assert j < n ==> !SameKey(db'.requests[i].bound, db'.requests[j].bound);
    }
    forall a | 0 <= a < |db.approvals| ensures ApprovalOk(db', db'.approvals[a]) {
      assert ApprovalOk(db, db.approvals[a]);
    }
    forall i: nat | i < |db'.requests| && db'.requests[i].status == PendingApproval ensures HasApproval(db', i) {
      assert HasApproval(db, i);
    }
  }

  lemma ClaimReceivedKeeps(db: Db, rid: nat, generation: Option<string>, who: Option<Principal>,
                           expected: Digest, now: Time)
    requires DbInv(db)
    requires rid < |db.requests| && db.requests[rid].status == Received && !HasApproval(db, rid)
    ensures var (db', claimed) := ClaimReceived(db, rid, generation, who, expected, now);
            && Keeps(db, db', {rid})
            && db'.requests[rid].status == (if claimed then Executing else Denied)
  {
    assert RowOk(db, db.requests[rid]);
    OneRow(db, ClaimReceived(db, rid, generation, who, expected, now).0, rid);
  }

  lemma ClaimApprovalKeeps(db: Db, rid: nat, generation: Option<string>, state: SurfaceState, now: Time,
                           who: Option<Principal>)
    requires DbInv(db)
    ensures var (db', claimed) := ClaimApproval(db, rid, generation, state, now, who);
            && Keeps(db, db', {})
            && (claimed ==> rid < |db.requests| && db.requests[rid].status == PendingApproval
                            && db'.requests[rid].status == Executing)
  {
    hide Authorized;
    var (db', claimed) := ClaimApproval(db, rid, generation, state, now, who);
    if rid < |db.requests| && db.requests[rid].status == PendingApproval {
      var a := ApprovalIndex(db.approvals, rid);
      assert HasApproval(db, rid) && ApprovalOk(db, db.approvals[a]);
      assert RowOk(db, db.requests[rid]);
      forall b | 0 <= b < |db.approvals| && db.approvals[b].request == rid ensures b == a {
        TheApproval(db, b);
      }
      OneRow(db, db', rid);
    } else {
      AuthorityOnly(db, db);
    }
  }

  ghost predicate LegalEnding(ending: Ending) {
    match ending.answer
    case Rejected => ending.status == Denied
    case Lapsed => ending.status == Expired
    case Cancelled => ending.status == Expired
    case _ => false
  }

  lemma FinishPendingKeeps(db: Db, rid: nat, ending: Ending, state: Option<SurfaceState>, now: Time,
                           deadlineOnly: bool)
    requires DbInv(db) && LegalEnding(ending)
    ensures Keeps(db, FinishPending(db, rid, ending, state, now, deadlineOnly).0, {})
  {
    var (db', finished) := FinishPending(db, rid, ending, state, now, deadlineOnly);
    if finished {
      var a := ApprovalIndex(db.approvals, rid);
      assert ApprovalOk(db, db.approvals[a]) && RowOk(db, db.requests[rid]);
      forall b | 0 <= b < |db.approvals| && db.approvals[b].request == rid ensures b == a {
        TheApproval(db, b);
      }
      OneRow(db, db', rid);
    } else {
      AuthorityOnly(db, db);
    }
  }

  /** The unconditional update is safe exactly where its caller owns the row. */
  lemma UpdateRequestKeeps(db: Db, rid: nat, status: Status, error: Option<string>, result: Option<string>,
                           now: Time)
    requires DbInv(db) && rid < |db.requests| && !Terminal(db.requests[rid].status)
    requires Rank(status) < Rank(db.requests[rid].status)
    requires Terminal(status) || status == PendingApproval
    requires HasApproval(db, rid) ==>
               Coupled(db.approvals[ApprovalIndex(db.approvals, rid)].status, status)
    requires status == PendingApproval ==> HasApproval(db, rid) && error == None && result == None
    ensures Keeps(db, UpdateRequest(db, rid, status, error, result, now), {rid})
    ensures UpdateRequest(db, rid, status, error, result, now).requests[rid].status == status
  {
    assert RowOk(db, db.requests[rid]);
    forall b | 0 <= b < |db.approvals| && db.approvals[b].request == rid
      ensures b == ApprovalIndex(db.approvals, rid)
    {
      TheApproval(db, b);
    }
    OneRow(db, UpdateRequest(db, rid, status, error, result, now), rid);
  }

  lemma CreateApprovalKeeps(db: Db, rid: nat, ref: string, expiresAt: Time, digest: Digest)
    requires DbInv(db) && rid < |db.requests| && !HasApproval(db, rid)
    requires db.requests[rid].status == Received && digest == db.requests[rid].bound.digest
    ensures var db' := CreateApproval(db, rid, ref, expiresAt, digest).value;
            && Keeps(db, db', {rid})
            && db'.requests == db.requests
            && HasApproval(db', rid)
            && db'.approvals[ApprovalIndex(db'.approvals, rid)].status == Awaiting
  {
    var app := Approval(rid, ref, digest, expiresAt, Awaiting, None, None, None);
    var db' := CreateApproval(db, rid, ref, expiresAt, digest).value;
    assert db' == db.(approvals := db.approvals + [app]);
    IndexAppended(db.approvals, app, rid);
    AppendedApproval(db, app);
  }

  lemma AppendedApproval(db: Db, app: Approval)
    requires DbInv(db) && ApprovalOk(db, app) && !HasApproval(db, app.request)
    ensures Keeps(db, db.(approvals := db.approvals + [app]), {app.request})
  {
    var db' := db.(approvals := db.approvals + [app]);
    assert db'.approvals[|db.approvals|] == app;
    assert forall a | 0 <= a < |db.approvals| :: db'.approvals[a] == db.approvals[a];
    AppendedApprovalInv(db, app);
  }

  lemma AppendedApprovalInv(db: Db, app: Approval)
    requires DbInv(db) && ApprovalOk(db, app) && !HasApproval(db, app.request)
    ensures DbInv(db.(approvals := db.approvals + [app]))
  {
    var db' := db.(approvals := db.approvals + [app]);
    var n := |db.approvals|;
    assert db'.approvals[n] == app && forall a | 0 <= a < n :: db'.approvals[a] == db.approvals[a];
    assert forall i | 0 <= i < |db.requests| :: RowOk(db, db.requests[i]);
    assert RowsOk(db') && KeysOk(db');
    forall a | 0 <= a < |db'.approvals| ensures ApprovalOk(db', db'.approvals[a]) {
      assert a < n ==> ApprovalOk(db, db'.approvals[a]);
    }
    forall i: nat | i < |db'.requests| && db'.requests[i].status == PendingApproval ensures HasApproval(db', i) {
      assert HasApproval(db, i);
      IndexStable(db.approvals, db'.approvals, i);
    }
  }

  // ---- maintenance --------------------------------------------------------------------------------

  lemma PruneKeeps(db: Db, now: Time)
    requires DbInv(db)
    ensures Keeps(db, Prune(db, now), {})
  {
    var db' := Prune(db, now);
    forall i | 0 <= i < |db.requests|
      ensures RowEvolves(db.requests[i], db'.requests[i]) && RowOk(db', db'.requests[i])
    {
      assert RowOk(db, db.requests[i]);
    }
    forall a | 0 <= a < |db.approvals|
      ensures ApprovalEvolves(db.approvals[a], db'.approvals[a])
      ensures db.approvals[a].request < |db.requests|
      ensures Coupled(db'.approvals[a].status, db'.requests[db.approvals[a].request].status)
    {
      assert ApprovalOk(db, db.approvals[a]);
    }
    InPlace(db, db');
    forall rid: nat | rid < |db.requests| && db.requests[rid].status in {Received, Executing}
      ensures SameFor(db, db', rid)
    {
    }
  }

  lemma ReconcileKeeps(db: Db, now: Time)
    requires DbInv(db)
    ensures DbInv(Reconcile(db, now)) && Evolves(db, Reconcile(db, now))
  {
    var db' := Reconcile(db, now);
    forall i | 0 <= i < |db.requests|
      ensures RowEvolves(db.requests[i], db'.requests[i]) && RowOk(db', db'.requests[i])
    {
      assert RowOk(db, db.requests[i]);
    }
    forall a | 0 <= a < |db.approvals|
      ensures ApprovalEvolves(db.approvals[a], db'.approvals[a])
      ensures db.approvals[a].request < |db.requests|
      ensures Coupled(db'.approvals[a].status, db'.requests[db.approvals[a].request].status)
    {
      assert ApprovalOk(db, db.approvals[a]);
    }
    InPlace(db, db');
  }

  /** Restoring keeps the tables sound, and leaves nothing that could still act. */
  lemma SanitizeKeeps(db: Db, now: Time)
    requires DbInv(db)
    ensures var db' := Sanitize(db, now);
            && DbInv(db') && Evolves(db, db')
            && |db'.requests| == |db.requests|
            && (forall i | 0 <= i < |db'.requests| :: Terminal(db'.requests[i].status))
            && (forall a | 0 <= a < |db'.approvals| :: db'.approvals[a].status != Awaiting)
            && (forall c :: !HasActiveToken(db', c))
            && (forall c :: PolicyFor(db', c) == EMPTY_POLICY)
  {
    var db' := Sanitize(db, now);
    forall i | 0 <= i < |db.requests|
      ensures RowEvolves(db.requests[i], db'.requests[i]) && RowOk(db', db'.requests[i])
      ensures Terminal(db'.requests[i].status)
    {
      assert RowOk(db, db.requests[i]);
    }
    forall a | 0 <= a < |db.approvals|
      ensures ApprovalEvolves(db.approvals[a], db'.approvals[a])
      ensures db.approvals[a].request < |db.requests|
      ensures Coupled(db'.approvals[a].status, db'.requests[db.approvals[a].request].status)
    {
      assert ApprovalOk(db, db.approvals[a]);
    }
    InPlace(db, db');
  }
}
