/** The transactions of broker/store.py told by the columns: exactly when each takes effect, and every row it leaves
    behind, without the helper functions that BrokerDb builds them from. */
module BrokerColumns {
  import opened Wrappers
  import opened PolicyRules
  import opened BrokerDb
  import opened BrokerInvariant

  // ---- authority ----------------------------------------------------------------------------------

  predicate LiveToken(db: Db, hash: string, caller: nat) {
    hash in db.tokens && db.tokens[hash].caller == caller && db.tokens[hash].revokedAt == None
  }

  predicate Unrevoked(db: Db, caller: nat) {
    caller < |db.callers| && db.callers[caller].revokedAt == None
  }

  /** Nobody presents itself, or the caller does, with this token or with none. */
  predicate MayAct(db: Db, caller: nat, who: Option<Principal>) {
    && Unrevoked(db, caller)
    && (who == None || who.value.id == caller)
    && if who == None || who.value.token == None then exists hash | hash in db.tokens :: LiveToken(db, hash, caller)
       else LiveToken(db, who.value.token.value, caller)
  }

  predicate StoredPolicy(db: Db, caller: nat, policy: Policy) {
    if caller in db.policies then db.policies[caller] == policy else policy == Policy(None, None, None)
  }

  lemma LiveSo(db: Db, caller: nat, who: Option<Principal>)
    ensures Live(db, caller, who) <==> MayAct(db, caller, who)
  {
    assert HasActiveToken(db, caller) <==> exists hash | hash in db.tokens :: LiveToken(db, hash, caller);
  }

  /** The authority bound at reservation is there: the catalog entry, the policy and its ruling are unchanged. */
  predicate Entitled(db: Db, row: Request, generation: Option<string>, who: Option<Principal>, text: string) {
    var b := row.bound;
    && MayAct(db, b.caller, who)
    && generation == Some(b.generation) && b.generation != ""
    && StoredPolicy(db, b.caller, b.policy)
    && Carries(b.policy, b.tool, b.op, text)
  }

  /** The row is what was reserved: its digest covers its own columns and the action and arguments stored with it. */
  predicate Intact(row: Request) {
    var a := row.bound.digest.action;
    && row.action == Some(a)
    && a.caller == row.bound.caller && a.tool == row.bound.tool && a.op == row.bound.op
    && a.generation == row.bound.generation
    && (if row.arguments == None then "null" else row.arguments.value) == a.arguments
  }

  /** In any tables, also ones that were tampered with, a claim asks for both. */
  lemma AuthorizedExactly(db: Db, row: Request, generation: Option<string>, who: Option<Principal>, effect: Effect)
    requires effect != Deny
    ensures Authorized(db, row, generation, who, effect)
       <==> Entitled(db, row, generation, who, if effect == Allow then "allow" else "review") && Intact(row)
  {
    LiveSo(db, row.bound.caller, who);
    DecidesSo(row.bound.policy, row.bound.tool, row.bound.op);
    hide Live, MayAct, Carries, Decide;
  }

  lemma AuthorizedSo(db: Db, row: Request, generation: Option<string>, who: Option<Principal>, effect: Effect)
    requires Faithful(row.bound) && PayloadKept(row) && !Terminal(row.status) && effect != Deny
    ensures Authorized(db, row, generation, who, effect)
       <==> Entitled(db, row, generation, who, if effect == Allow then "allow" else "review")
  {
    AuthorizedExactly(db, row, generation, who, effect);
    hide Authorized, MayAct, Carries;
  }

  // ---- frames -------------------------------------------------------------------------------------

  predicate SameAuthority(db: Db, db': Db) {
    db'.callers == db.callers && db'.tokens == db.tokens && db'.policies == db.policies
  }

  /** Everything but one request row and, if any, one approval row is as before. */
  predicate OnlyRows(db: Db, db': Db, rid: nat, a: nat) {
    && SameAuthority(db, db')
    && |db'.requests| == |db.requests| && |db'.approvals| == |db.approvals|
    && (forall i | 0 <= i < |db.requests| && i != rid :: db'.requests[i] == db.requests[i])
    && (forall b | 0 <= b < |db.approvals| && b != a :: db'.approvals[b] == db.approvals[b])
  }

  /** The row a request ends with when it can no longer act: its payload is gone, its binding stays. */
  predicate EndedAs(row: Request, row': Request, status: Status, error: Option<string>, at: Time) {
    row' == Request(row.bound, status, None, None, row.result, error, at, row.prunedAt)
  }

  predicate AnsweredAs(app: Approval, app': Approval, status: ApprovalStatus, heard: Option<SurfaceState>) {
    app' == match heard
            case None => Approval(app.request, app.ref, app.digest, app.expiresAt, status, None, None, None)
            case Some(s) =>
              Approval(app.request, app.ref, app.digest, app.expiresAt, status, s.approver, s.note, s.decidedAt)
  }

  // ---- a pending pair -----------------------------------------------------------------------------

  /** A pending request with the payload and the digests it was reserved with, and its one approval awaiting. */
  ghost predicate Waiting(db: Db, rid: nat, a: nat) {
    && rid < |db.requests| && db.requests[rid].status == PendingApproval
    && Faithful(db.requests[rid].bound) && PayloadKept(db.requests[rid])
    && a < |db.approvals| && a == ApprovalIndex(db.approvals, rid) && db.approvals[a].status == Awaiting
    && db.approvals[a].digest == db.requests[rid].bound.digest
    && forall b | 0 <= b < |db.approvals| && db.approvals[b].request == rid :: b == a
  }

  /** In sound tables every pending request is waiting so. */
  lemma PendingWaits(db: Db, rid: nat)
    requires DbInv(db) && rid < |db.requests| && db.requests[rid].status == PendingApproval
    ensures Waiting(db, rid, ApprovalIndex(db.approvals, rid))
  {
  }

  lemma OnlyWaiting(db: Db, rid: nat, a: nat)
    requires DbInv(db) && rid < |db.requests| && db.requests[rid].status == PendingApproval
    requires a < |db.approvals| && db.approvals[a].request == rid
    ensures Waiting(db, rid, a)
  {
    PendingWaits(db, rid);
    TheApproval(db, a);
  }

  // ---- the claims ---------------------------------------------------------------------------------

  /** A received row starts executing exactly for the caller that reserved it, under unchanged authority that allows
      it; otherwise it is denied. */
  lemma DirectClaimExactly(db: Db, rid: nat, generation: Option<string>, who: Option<Principal>, expected: Digest,
                           now: Time)
    requires DbInv(db) && rid < |db.requests| && db.requests[rid].status == Received
    ensures var (db', claimed) := ClaimReceived(db, rid, generation, who, expected, now);
            var row := db.requests[rid];
            && (claimed <==> Entitled(db, row, generation, who, "allow") && expected == row.bound.digest)
            && OnlyRows(db, db', rid, |db.approvals|)
            && if claimed then db'.requests[rid] == row.(status := Executing, updatedAt := now)
               else EndedAs(row, db'.requests[rid], Denied, Some("authority_changed"), now)
  {
    assert RowOk(db, db.requests[rid]);
    AuthorizedSo(db, db.requests[rid], generation, who, Allow);
    hide DbInv, Authorized, Entitled;
  }

  /** A row that is no longer what was reserved is never executed, whatever the tables hold: either claim ends it. */
  lemma TamperedDenied(db: Db, rid: nat, generation: Option<string>, who: Option<Principal>, expected: Digest,
                       state: SurfaceState, now: Time)
    requires rid < |db.requests| && !Intact(db.requests[rid])
    ensures var (db', claimed) := ClaimReceived(db, rid, generation, who, expected, now);
            && !claimed
            && (db.requests[rid].status == Received ==>
                  EndedAs(db.requests[rid], db'.requests[rid], Denied, Some("authority_changed"), now))
    ensures var (db', claimed) := ClaimApproval(db, rid, generation, state, now, who);
            && !claimed
            && (db.requests[rid].status == PendingApproval ==>
                  || EndedAs(db.requests[rid], db'.requests[rid], Denied, Some("approval_invalidated"), now)
                  || EndedAs(db.requests[rid], db'.requests[rid], Expired, None, now))
  {
    AuthorizedExactly(db, db.requests[rid], generation, who, Allow);
    AuthorizedExactly(db, db.requests[rid], generation, who, Review);
    hide Authorized, Intact, Entitled;
  }

  /** A pending row starts executing exactly before the deadline, under unchanged authority that sends it to review,
      whether or not its caller presents itself; the approval is then recorded as answered. Otherwise both rows end:
      expired when it was too late, else invalidated. */
  lemma ReviewedClaimExactly(db: Db, rid: nat, a: nat, generation: Option<string>, state: SurfaceState, now: Time,
                             who: Option<Principal>)
    requires DbInv(db) && rid < |db.requests| && db.requests[rid].status == PendingApproval
    requires a < |db.approvals| && db.approvals[a].request == rid
    ensures var (db', claimed) := ClaimApproval(db, rid, generation, state, now, who);
            var row, app := db.requests[rid], db.approvals[a];
            && (claimed <==> now < app.expiresAt && Entitled(db, row, generation, who, "review"))
            && OnlyRows(db, db', rid, a)
            && if claimed then
                 && db'.requests[rid] == row.(status := Executing, updatedAt := now)
                 && AnsweredAs(app, db'.approvals[a], Approved, Some(state))
               else if app.expiresAt <= now then
                 && EndedAs(row, db'.requests[rid], Expired, None, now)
                 && db'.approvals[a] == app.(status := Lapsed)
               else
                 && EndedAs(row, db'.requests[rid], Denied, Some("approval_invalidated"), now)
                 && db'.approvals[a] == app.(status := Cancelled)
  {
    OnlyWaiting(db, rid, a);
    AuthorizedSo(db, db.requests[rid], generation, who, Review);
    ClaimedOrEnded(db, rid, a, generation, state, now, who);
    hide DbInv, Waiting, Authorized, Entitled, ClaimApproval;
  }

  lemma ClaimedOrEnded(db: Db, rid: nat, a: nat, generation: Option<string>, state: SurfaceState, now: Time,
                       who: Option<Principal>)
    requires Waiting(db, rid, a)
    ensures var (db', claimed) := ClaimApproval(db, rid, generation, state, now, who);
            var row, app := db.requests[rid], db.approvals[a];
            var late := app.expiresAt <= now;
            && (claimed <==> !late && Authorized(db, row, generation, who, Review))
            && db' == db.(requests := db'.requests, approvals := db'.approvals)
            && db'.requests == db.requests[
                 rid := if claimed then row.(status := Executing, updatedAt := now)
                        else Ended(row, if late then Expired else Denied,
                                   if late then None else Some("approval_invalidated"), now)]
            && db'.approvals == db.approvals[
                 a := if claimed then Answered(app, Approved, Some(state))
                      else app.(status := if late then Lapsed else Cancelled)]
  {
    OneAwaiting(db, rid, a, if db.approvals[a].expiresAt <= now then Lapsed else Cancelled);
    hide Authorized, ApprovalIndex, CloseAwaiting, Ended, Answered, Faithful, PayloadKept;
  }

  lemma OneAwaiting(db: Db, rid: nat, a: nat, status: ApprovalStatus)
    requires Waiting(db, rid, a)
    ensures CloseAwaiting(db.approvals, rid, status) == db.approvals[a := db.approvals[a].(status := status)]
  {
    assert db.approvals[a].request == rid;
  }

  // ---- the end of a pending pair ------------------------------------------------------------------

  /** What ends a pending pair: the deadline before anything, withdrawn authority next, then the verdict brought.
      A sweep, which brings none, ends only what is due. */
  lemma FinishesExactly(db: Db, rid: nat, a: nat, ending: Ending, state: Option<SurfaceState>, now: Time,
                        deadlineOnly: bool)
    requires DbInv(db) && rid < |db.requests| && db.requests[rid].status == PendingApproval
    requires a < |db.approvals| && db.approvals[a].request == rid
    ensures var (db', finished) := FinishPending(db, rid, ending, state, now, deadlineOnly);
            var row, app := db.requests[rid], db.approvals[a];
            && (finished <==> !deadlineOnly || app.expiresAt <= now)
            && (!finished ==> db' == db)
            && (finished ==>
                  && OnlyRows(db, db', rid, a)
                  && if app.expiresAt <= now then
                       && EndedAs(row, db'.requests[rid], Expired, None, now)
                       && AnsweredAs(app, db'.approvals[a], Lapsed, state)
                     else if !MayAct(db, row.bound.caller, None) then
                       && EndedAs(row, db'.requests[rid], Expired, None, now)
                       && AnsweredAs(app, db'.approvals[a], Cancelled, state)
                     else
                       && EndedAs(row, db'.requests[rid], ending.status, ending.error, now)
                       && AnsweredAs(app, db'.approvals[a], ending.answer, state))
  {
    OnlyWaiting(db, rid, a);
    FinishedOrKept(db, rid, a, ending, state, now, deadlineOnly);
    hide DbInv, Waiting, MayAct, FinishPending;
  }

  lemma FinishedOrKept(db: Db, rid: nat, a: nat, ending: Ending, state: Option<SurfaceState>, now: Time,
                       deadlineOnly: bool)
    requires Waiting(db, rid, a)
    ensures var (db', finished) := FinishPending(db, rid, ending, state, now, deadlineOnly);
            var row, app := db.requests[rid], db.approvals[a];
            var last := if app.expiresAt <= now then Ending(Expired, Lapsed, None)
                        else if !MayAct(db, row.bound.caller, None) then Ending(Expired, Cancelled, None) else ending;
            && (finished <==> !deadlineOnly || app.expiresAt <= now)
            && (!finished ==> db' == db)
            && (finished ==>
                  && db' == db.(requests := db'.requests, approvals := db'.approvals)
                  && db'.requests == db.requests[rid := Ended(row, last.status, last.error, now)]
                  && db'.approvals == db.approvals[a := Answered(app, last.answer, state)])
  {
    LiveSo(db, db.requests[rid].bound.caller, None);
    hide MayAct, CallerRevoked, HasActiveToken, ApprovalIndex, Ended, Answered, Faithful, PayloadKept;
  }

  /** Nothing else is ended: not a row that is no longer pending, not one without an approval. */
  lemma FinishesNothingElse(db: Db, rid: nat, ending: Ending, state: Option<SurfaceState>, now: Time,
                            deadlineOnly: bool)
    requires rid < |db.requests| ==> db.requests[rid].status != PendingApproval
    ensures FinishPending(db, rid, ending, state, now, deadlineOnly) == (db, false)
  {
  }

  // ---- policies -----------------------------------------------------------------------------------

  /** One commit stores the policy and ends what waits under the old one: each pending request of that caller is
      denied as invalidated, with its awaiting approval cancelled. Nothing else changes. */
  ghost predicate PolicyWritten(db: Db, db': Db, caller: nat, policy: Policy, now: Time) {
    && db'.callers == db.callers && db'.tokens == db.tokens
    && (forall c | c in db'.policies :: c == caller || c in db.policies)
    && caller in db'.policies && db'.policies[caller] == policy
    && (forall c | c in db.policies && c != caller :: c in db'.policies && db'.policies[c] == db.policies[c])
    && |db'.requests| == |db.requests| && |db'.approvals| == |db.approvals|
    && (forall i | 0 <= i < |db.requests| ::
          if db.requests[i].status == PendingApproval && db.requests[i].bound.caller == caller
          then EndedAs(db.requests[i], db'.requests[i], Denied, Some("approval_invalidated"), now)
          else db'.requests[i] == db.requests[i])
    && (forall a | 0 <= a < |db.approvals| ::
          db'.approvals[a] ==
          if && db.approvals[a].status == Awaiting && db.approvals[a].request < |db.requests|
             && db.requests[db.approvals[a].request].status == PendingApproval
             && db.requests[db.approvals[a].request].bound.caller == caller
          then db.approvals[a].(status := Cancelled) else db.approvals[a])
  }

  lemma PolicyWriteSo(db: Db, caller: nat, policy: Policy, now: Time)
    ensures PolicyWritten(db, WritePolicy(db, caller, policy, now), caller, policy, now)
  {
  }

  /** The compared write commits exactly for an unrevoked caller whose stored policy is still the one compared. */
  lemma ComparedWriteExactly(db: Db, caller: nat, before: Policy, after: Policy, now: Time)
    ensures var (db', committed) := CompareAndSetPolicy(db, caller, before, after, now);
            && (committed <==> Unrevoked(db, caller) && StoredPolicy(db, caller, before))
            && if committed then PolicyWritten(db, db', caller, after, now) else db' == db
  {
    PolicyWriteSo(db, caller, after, now);
    hide WritePolicy, PolicyWritten;
  }

  // ---- reservations -------------------------------------------------------------------------------

  /** An idempotency key is 1 to 128 letters, digits, underscores or hyphens. */
  predicate KeyText(key: string) {
    && 0 < |key| < 129
    && forall i | 0 <= i < |key| ::
         var n := key[i] as int; 48 <= n < 58 || 65 <= n < 91 || 97 <= n < 123 || n == 95 || n == 45
  }

  lemma KeyTextSo(key: string)
    ensures ValidKey(Some(key)) <==> KeyText(key)
  {
    assert forall i | 0 <= i < |key| :: key[i] in key;
    forall c | c in key ensures exists i :: 0 <= i < |key| && key[i] == c {
    }
  }

  ghost predicate Used(db: Db, i: nat, caller: nat, key: Option<string>) {
    key.Some? && i < |db.requests| && db.requests[i].bound.caller == caller && db.requests[i].bound.key == key
  }

  ghost predicate ReservedAs(row: Request, db: Db, who: Principal, tool: string, op: string, arguments: string,
                             reason: Option<string>, generation: string, key: Option<string>, nonce: string, now: Time)
  {
    var action := Action(who.id, tool, op, generation, arguments, reason, nonce);
    && row.bound.caller == who.id && row.bound.tool == tool && row.bound.op == op && row.bound.generation == generation
    && StoredPolicy(db, who.id, row.bound.policy)
    && row.bound.digest == Sha256(action) && row.bound.key == key
    && row.bound.payload == Payload(tool, op, arguments, reason)
    && row == Request(row.bound, Received, Some(arguments), Some(action), None, None, now, None)
  }

  /** A reservation under a fresh key, or under none: refused for a malformed key or withdrawn authority, and
      otherwise one row is appended, bound to the caller, the stored policy and the action. */
  lemma FreshReservation(db: Db, who: Principal, tool: string, op: string, arguments: string, reason: Option<string>,
                         generation: string, key: Option<string>, nonce: string, now: Time)
    requires forall i: nat :: !Used(db, i, who.id, key)
    ensures var (db', answer) := Reserve(db, who, tool, op, arguments, reason, generation, key, nonce, now);
            && (answer == BadKey <==> key.Some? && !KeyText(key.value))
            && (answer == NoAuthority <==> (key.Some? ==> KeyText(key.value)) && !MayAct(db, who.id, Some(who)))
            && (answer in {BadKey, NoAuthority} ==> db' == db)
            && (answer !in {BadKey, NoAuthority} ==>
                  && answer == Receipt(|db.requests|, true, false)
                  && SameAuthority(db, db') && db'.approvals == db.approvals
                  && |db'.requests| == |db.requests| + 1 && db'.requests[..|db.requests|] == db.requests
                  && ReservedAs(db'.requests[|db.requests|], db, who, tool, op, arguments, reason, generation, key,
                                nonce, now))
  {
    LiveSo(db, who.id, Some(who));
    if key.Some? {
      KeyTextSo(key.value);
    }
    hide Live, MayAct, ValidKey, KeyText;
    assert key.Some? ==> !Used(db, KeyIndex(db.requests, who.id, key.value), who.id, key);
  }

  /** Under a used key nothing is written: the first request answers, unless the policy denies it now. */
  lemma UsedReservation(db: Db, i: nat, who: Principal, tool: string, op: string, arguments: string,
                        reason: Option<string>, generation: string, key: Option<string>, nonce: string, now: Time)
    requires DbInv(db) && Used(db, i, who.id, key)
    ensures var (db', answer) := Reserve(db, who, tool, op, arguments, reason, generation, key, nonce, now);
            var b := db.requests[i].bound;
            && db' == db
            && (answer == BadKey <==> !KeyText(key.value))
            && (answer.Receipt? <==>
                  && KeyText(key.value) && MayAct(db, who.id, Some(who))
                  && exists policy, text :: StoredPolicy(db, who.id, policy) && text in {"allow", "review"}
                                            && Carries(policy, b.tool, b.op, text))
            && (answer.Receipt? ==> answer == Receipt(i, false, b.payload != Payload(tool, op, arguments, reason)))
  {
    LiveSo(db, who.id, Some(who));
    KeyTextSo(key.value);
    var k := KeyIndex(db.requests, who.id, key.value);
    assert SameKey(db.requests[k].bound, db.requests[i].bound);
    assert k == i;
    var policy := PolicyFor(db, who.id);
    assert StoredPolicy(db, who.id, policy);
    DecidesSo(policy, db.requests[i].bound.tool, db.requests[i].bound.op);
    hide DbInv, Live, MayAct, Carries, Decide, ValidKey, KeyText;
  }

  // ---- callers and tokens -------------------------------------------------------------------------

  /** A name is taken once, also by a revoked caller; a new caller is unrevoked. */
  lemma AddsCaller(db: Db, name: string)
    ensures AddCaller(db, name).None? <==> exists c | 0 <= c < |db.callers| :: db.callers[c].name == name
    ensures AddCaller(db, name).Some? ==>
              var (db', id) := AddCaller(db, name).value;
              && id == |db.callers| && |db'.callers| == id + 1 && db'.callers[..id] == db.callers
              && db'.callers[id].name == name && db'.callers[id].revokedAt == None
              && db' == db.(callers := db'.callers)
  {
  }

  /** A hash is stored once, live, and only for a caller that exists. */
  lemma AddsToken(db: Db, caller: nat, hash: string)
    ensures AddToken(db, caller, hash).Some? <==> hash !in db.tokens && caller < |db.callers|
    ensures AddToken(db, caller, hash).Some? ==>
              var db' := AddToken(db, caller, hash).value;
              && LiveToken(db', hash, caller) && db'.tokens - {hash} == db.tokens
              && db' == db.(tokens := db'.tokens)
  {
  }

  /** Exactly the callers of that name are revoked from then on; whoever was keeps its stamp. */
  lemma RevokesByName(db: Db, name: string, now: Time)
    ensures var db' := RevokeCaller(db, name, now);
            && db' == db.(callers := db'.callers) && |db'.callers| == |db.callers|
            && forall c | 0 <= c < |db.callers| ::
                 && db'.callers[c].name == db.callers[c].name
                 && db'.callers[c].revokedAt == (if db.callers[c].revokedAt.Some? then db.callers[c].revokedAt
                                                 else if db.callers[c].name == name then Some(now) else None)
  {
  }

  lemma RevokesTokens(db: Db, hashes: set<string>, now: Time)
    ensures var db' := RevokeTokens(db, hashes, now);
            && db' == db.(tokens := db'.tokens) && db'.tokens.Keys == db.tokens.Keys
            && forall h | h in db.tokens ::
                 && db'.tokens[h].caller == db.tokens[h].caller
                 && db'.tokens[h].revokedAt == (if db.tokens[h].revokedAt.Some? then db.tokens[h].revokedAt
                                                else if h in hashes then Some(now) else None)
  {
  }

  // ---- the unconditional update -------------------------------------------------------------------

  /** It sets the status, keeps an error or result it is not given, and empties the payload of a row it ends. */
  lemma UpdatesExactly(db: Db, rid: nat, status: Status, error: Option<string>, result: Option<string>, now: Time)
    ensures var db' := UpdateRequest(db, rid, status, error, result, now);
            if rid >= |db.requests| then db' == db
            else
              var row := db.requests[rid];
              && OnlyRows(db, db', rid, |db.approvals|)
              && db'.requests[rid]
              == Request(row.bound, status, if HasEnded(status) then None else row.arguments,
                         if HasEnded(status) then None else row.action, if result == None then row.result else result,
                         if error == None then row.error else error, now, row.prunedAt)
  {
  }

  /** A request that exists gets one more approval, awaiting and unanswered. */
  lemma CreatesApproval(db: Db, rid: nat, ref: string, expiresAt: Time, digest: Digest)
    ensures CreateApproval(db, rid, ref, expiresAt, digest).Some? <==> rid < |db.requests|
    ensures rid < |db.requests| ==>
              var db' := CreateApproval(db, rid, ref, expiresAt, digest).value;
              && db' == db.(approvals := db'.approvals)
              && db'.approvals == db.approvals + [Approval(rid, ref, digest, expiresAt, Awaiting, None, None, None)]
  {
  }

  // ---- maintenance --------------------------------------------------------------------------------

  predicate HasEnded(status: Status) {
    status in {Completed, Denied, Expired, Failed, Unknown, NotFound, Invalid, ResultExpired}
  }

  /** A row is stripped exactly when it ended more than seven days before the reading and was not stripped before;
      a completion then says its result expired. Its approvals lose their note and nothing else. */
  lemma PrunesExactly(db: Db, now: Time)
    ensures var db' := Prune(db, now);
            && SameAuthority(db, db') && |db'.requests| == |db.requests| && |db'.approvals| == |db.approvals|
            && (forall i | 0 <= i < |db.requests| ::
                  var row := db.requests[i];
                  db'.requests[i] ==
                  if HasEnded(row.status) && row.prunedAt == None && now - row.updatedAt > 7.0 * 24.0 * 3600.0
                  then Request(row.bound, if row.status == Completed then ResultExpired else row.status, None, None,
                               None, row.error, row.updatedAt, Some(now))
                  else row)
            && (forall a | 0 <= a < |db.approvals| ::
                  db'.approvals[a] ==
                  if && db.approvals[a].request < |db.requests|
                     && db'.requests[db.approvals[a].request] != db.requests[db.approvals[a].request]
                  then db.approvals[a].(note := None) else db.approvals[a])
  {
  }

  /** Offline reconciliation ends exactly the received and executing rows: their outcome is unknown. */
  lemma ReconcilesExactly(db: Db, now: Time)
    ensures var db' := Reconcile(db, now);
            && db' == db.(requests := db'.requests) && |db'.requests| == |db.requests|
            && forall i | 0 <= i < |db.requests| ::
                 if db.requests[i].status in {Received, Executing}
                 then EndedAs(db.requests[i].(result := None), db'.requests[i], Unknown, Some("offline_reconciled"),
                              now)
                 else db'.requests[i] == db.requests[i]
  {
  }

  /** A restored copy: what waited has expired, what ran has an unknown outcome, no token is live and every stored
      policy is empty. */
  lemma RestoresExactly(db: Db, now: Time)
    ensures var db' := Sanitize(db, now);
            && db'.callers == db.callers && |db'.requests| == |db.requests| && |db'.approvals| == |db.approvals|
            && db'.tokens.Keys == db.tokens.Keys && db'.policies.Keys == db.policies.Keys
            && (forall c | c in db'.policies :: db'.policies[c] == Policy(None, None, None))
            && (forall h | h in db.tokens ::
                  && db'.tokens[h].caller == db.tokens[h].caller
                  && db'.tokens[h].revokedAt == Some(db.tokens[h].revokedAt.GetOr(now)))
            && (forall i | 0 <= i < |db.requests| ::
                  var row := db.requests[i].(result := None);
                  if row.status == PendingApproval
                  then EndedAs(row, db'.requests[i], Expired, Some("restore_cancelled"), now)
                  else if row.status in {Received, Executing}
                  then EndedAs(row, db'.requests[i], Unknown, Some("restore_unknown"), now)
                  else db'.requests[i] == db.requests[i])
            && (forall a | 0 <= a < |db.approvals| ::
                  db'.approvals[a] == if db.approvals[a].status == Awaiting
                                      then db.approvals[a].(status := Cancelled, note := None) else db.approvals[a])
  {
  }
}
