/** The broker's tables as a value, and each committed transaction of broker/store.py as a function on
    that value. Class BrokerStore.Store executes these step by step; module Protocol interleaves them.

    A primary key is an index into its table: rows are only ever appended or updated. SHA-256 over
    canonical JSON is modelled as injective, so a digest is the value it covers, and arguments are their
    canonical JSON text. Times are readings of the wall clock in seconds. */
module BrokerDb {
  import opened Wrappers
  import opened PolicyRules

  type Time = real

  const PRUNE_AGE: Time := 604800.0

  // ---- rows ---------------------------------------------------------------------------------------

  datatype CallerRow = CallerRow(name: string, revokedAt: Option<Time>)

  datatype TokenRow = TokenRow(caller: nat, revokedAt: Option<Time>)

  /** The canonical action a request digest covers; the nonce is random and private. */
  datatype Action = Action(caller: nat, tool: string, op: string, generation: string,
                           arguments: string, reason: Option<string>, nonce: string)

  datatype Digest = Sha256(action: Action)

  /** What a retry must repeat: the payload digest leaves out the generation and the nonce. */
  datatype Payload = Payload(tool: string, op: string, arguments: string, reason: Option<string>)

  datatype Status =
    | Received | PendingApproval | Executing
    | Completed | Denied | Expired | Failed | Unknown | NotFound | Invalid | ResultExpired

  /** The columns an INSERT writes and nothing may rewrite. */
  datatype Bound = Bound(caller: nat, tool: string, op: string, generation: string,
                         policy: Policy, digest: Digest, key: Option<string>, payload: Payload)

  datatype Request = Request(bound: Bound, status: Status, arguments: Option<string>, action: Option<Action>,
                             result: Option<string>, error: Option<string>,
                             updatedAt: Time, prunedAt: Option<Time>)

  datatype ApprovalStatus = Awaiting | Approved | Rejected | Lapsed | Cancelled

  datatype Approval = Approval(request: nat, ref: string, digest: Digest, expiresAt: Time,
                               status: ApprovalStatus, approver: Option<string>,
                               note: Option<string>, decidedAt: Option<string>)

  datatype Db = Db(callers: seq<CallerRow>, tokens: map<string, TokenRow>, policies: map<nat, Policy>,
                   requests: seq<Request>, approvals: seq<Approval>)

  const EMPTY_DB := Db([], map[], map[], [], [])

  /** An authenticated caller, with the hash of the token it presented. */
  datatype Principal = Principal(id: nat, token: Option<string>)

  datatype Verdict = Undecided | Yes | No | TimedOut | Withdrawn

  /** What a poll of the approval surface reports. */
  datatype SurfaceState = SurfaceState(outcome: Verdict, approver: Option<string>,
                                       note: Option<string>, decidedAt: Option<string>)

  predicate Terminal(status: Status) {
    status !in {Received, PendingApproval, Executing}
  }

  /** Position of a status on the one-way path every request follows. */
  function Rank(status: Status): nat {
    match status
    case Received => 4
    case PendingApproval => 3
    case Executing => 2
    case ResultExpired => 0
    case _ => 1
  }

  // ---- queries ------------------------------------------------------------------------------------

  predicate HasActiveToken(db: Db, caller: nat) {
    exists hash | hash in db.tokens :: db.tokens[hash] == TokenRow(caller, None)
  }

  predicate CallerRevoked(db: Db, caller: nat) {
    caller >= |db.callers| || db.callers[caller].revokedAt.Some?
  }

  /** The authority check: an unrevoked caller, and the presented token (or, with none, any token) live. */
  predicate Live(db: Db, caller: nat, who: Option<Principal>) {
    && !CallerRevoked(db, caller)
    && (who.Some? ==> who.value.id == caller)
    && if who.Some? && who.value.token.Some?
       then who.value.token.value in db.tokens && db.tokens[who.value.token.value] == TokenRow(caller, None)
       else HasActiveToken(db, caller)
  }

  function PolicyFor(db: Db, caller: nat): Policy {
    if caller in db.policies then db.policies[caller] else EMPTY_POLICY
  }

  /** The first caller of a name, or the table's length. */
  function NameIndex(callers: seq<CallerRow>, name: string): (i: nat)
    ensures i <= |callers|
    ensures i < |callers| ==> callers[i].name == name
    ensures forall j | 0 <= j < i :: callers[j].name != name
  {
    if callers == [] || callers[0].name == name then 0 else 1 + NameIndex(callers[1..], name)
  }

  /** The first request a caller made under an idempotency key, or the table's length. */
  function KeyIndex(requests: seq<Request>, caller: nat, key: string): (i: nat)
    ensures i <= |requests|
    ensures i < |requests| ==> requests[i].bound.caller == caller && requests[i].bound.key == Some(key)
    ensures forall j | 0 <= j < i :: !(requests[j].bound.caller == caller && requests[j].bound.key == Some(key))
  {
    if requests == [] then 0
    else if requests[0].bound.caller == caller && requests[0].bound.key == Some(key) then 0
    else 1 + KeyIndex(requests[1..], caller, key)
  }

  /** The first approval row of a request, or the table's length. */
  function ApprovalIndex(approvals: seq<Approval>, rid: nat): (i: nat)
    ensures i <= |approvals|
    ensures i < |approvals| ==> approvals[i].request == rid
    ensures forall j | 0 <= j < i :: approvals[j].request != rid
  {
    if approvals == [] then 0
    else if approvals[0].request == rid then 0
    else 1 + ApprovalIndex(approvals[1..], rid)
  }

  /** The stored action and arguments still hash to the bound digest, under the given generation. */
  predicate BoundTo(row: Request, generation: string) {
    && row.action.Some?
    && var a := row.action.value;
       && a == Action(row.bound.caller, row.bound.tool, row.bound.op, generation, a.arguments, a.reason, a.nonce)
       && row.bound.digest == Sha256(a)
       && row.arguments.GetOr("null") == a.arguments
  }

  predicate ValidKey(key: Option<string>) {
    key.Some? ==>
      && 1 <= |key.value| <= 128
      && forall c | c in key.value ::
           'A' <= c <= 'Z' || 'a' <= c <= 'z' || '0' <= c <= '9' || c == '_' || c == '-'
  }

  // ---- single-row updates -------------------------------------------------------------------------

  function PutRequest(db: Db, rid: nat, row: Request): Db
    requires rid < |db.requests|
  {
    db.(requests := db.requests[rid := row])
  }

  /** A terminal (or denied) row keeps its bound columns and loses its private payload. */
  function Ended(row: Request, status: Status, error: Option<string>, now: Time): Request {
    row.(status := status, error := error, arguments := None, action := None, updatedAt := now)
  }

  function Answered(app: Approval, status: ApprovalStatus, state: Option<SurfaceState>): Approval {
    if state.Some? then
      app.(status := status, approver := state.value.approver, note := state.value.note,
           decidedAt := state.value.decidedAt)
    else
      app.(status := status, approver := None, note := None, decidedAt := None)
  }

  // ---- callers, tokens, policies ------------------------------------------------------------------

  function AddCaller(db: Db, name: string): Option<(Db, nat)> {
    if exists i | 0 <= i < |db.callers| :: db.callers[i].name == name then None
    else Some((db.(callers := db.callers + [CallerRow(name, None)]), |db.callers|))
  }

  function AddToken(db: Db, caller: nat, hash: string): Option<Db> {
    if hash in db.tokens || caller >= |db.callers| then None
    else Some(db.(tokens := db.tokens[hash := TokenRow(caller, None)]))
  }

  function RevokeCaller(db: Db, name: string, now: Time): Db {
    db.(callers := seq(|db.callers|, i requires 0 <= i < |db.callers| =>
          if db.callers[i].name == name && db.callers[i].revokedAt.None?
          then db.callers[i].(revokedAt := Some(now)) else db.callers[i]))
  }

  /** One UPDATE over a chosen set of hashes: a prefix match, or all of a caller's tokens but one. */
  function RevokeTokens(db: Db, hashes: set<string>, now: Time): Db {
    db.(tokens := map hash | hash in db.tokens ::
          if hash in hashes && db.tokens[hash].revokedAt.None?
          then db.tokens[hash].(revokedAt := Some(now)) else db.tokens[hash])
  }

  /** An approval a policy write invalidates. */
  predicate Invalidated(db: Db, caller: nat, app: Approval) {
    && app.status == Awaiting
    && app.request < |db.requests|
    && db.requests[app.request].bound.caller == caller
    && db.requests[app.request].status == PendingApproval
  }

  function WritePolicy(db: Db, caller: nat, policy: Policy, now: Time): Db {
    db.(policies := db.policies[caller := policy],
        approvals := seq(|db.approvals|, i requires 0 <= i < |db.approvals| =>
          if Invalidated(db, caller, db.approvals[i]) then db.approvals[i].(status := Cancelled)
          else db.approvals[i]),
        requests := seq(|db.requests|, i requires 0 <= i < |db.requests| =>
          if db.requests[i].bound.caller == caller && db.requests[i].status == PendingApproval
          then Ended(db.requests[i], Denied, Some("approval_invalidated"), now)
          else db.requests[i]))
  }

  function CompareAndSetPolicy(db: Db, caller: nat, before: Policy, after: Policy, now: Time): (Db, bool) {
    if CallerRevoked(db, caller) || PolicyFor(db, caller) != before then (db, false)
    else (WritePolicy(db, caller, after, now), true)
  }

  // ---- reservation and claims ---------------------------------------------------------------------

  datatype Reservation = BadKey | NoAuthority | Receipt(id: nat, created: bool, conflict: bool)

  function NewRequest(db: Db, who: Principal, tool: string, op: string, arguments: string, reason: Option<string>,
                      generation: string, key: Option<string>, nonce: string, now: Time): Request
  {
    var action := Action(who.id, tool, op, generation, arguments, reason, nonce);
    Request(Bound(who.id, tool, op, generation, PolicyFor(db, who.id), Sha256(action), key,
                  Payload(tool, op, arguments, reason)),
            Received, Some(arguments), Some(action), None, None, now, None)
  }

  function Reserve(db: Db, who: Principal, tool: string, op: string, arguments: string, reason: Option<string>,
                   generation: string, key: Option<string>, nonce: string, now: Time): (Db, Reservation)
  {
    if !ValidKey(key) then (db, BadKey)
    else if !Live(db, who.id, Some(who)) then (db, NoAuthority)
    else
      var prior := if key.Some? then KeyIndex(db.requests, who.id, key.value) else |db.requests|;
      if prior < |db.requests| then
        var row := db.requests[prior];
        if Decide(PolicyFor(db, who.id), row.bound.tool, row.bound.op) == Deny then (db, NoAuthority)
        else (db, Receipt(prior, false, row.bound.payload != Payload(tool, op, arguments, reason)))
      else
        (db.(requests := db.requests + [NewRequest(db, who, tool, op, arguments, reason, generation, key, nonce, now)]),
         Receipt(|db.requests|, true, false))
  }

  /** The commit-point checks both claims share: live authority, the loaded generation, an intact binding
      and the very policy bound at reservation, deciding as this path needs. */
  predicate Authorized(db: Db, row: Request, generation: Option<string>, who: Option<Principal>, effect: Effect) {
    && Live(db, row.bound.caller, who)
    && generation.Some? && generation.value != ""
    && row.bound.generation == generation.value
    && BoundTo(row, generation.value)
    && PolicyFor(db, row.bound.caller) == row.bound.policy
    && Decide(row.bound.policy, row.bound.tool, row.bound.op) == effect
  }

  function ClaimReceived(db: Db, rid: nat, generation: Option<string>, who: Option<Principal>,
                         expected: Digest, now: Time): (Db, bool)
  {
    if rid >= |db.requests| || db.requests[rid].status != Received then (db, false)
    else
      var row := db.requests[rid];
      if Authorized(db, row, generation, who, Allow) && row.bound.digest == expected then
        (PutRequest(db, rid, row.(status := Executing, updatedAt := now)), true)
      else
        (PutRequest(db, rid, Ended(row, Denied, Some("authority_changed"), now)), false)
  }

  /** Every awaiting approval row of a request takes a new status. */
  function CloseAwaiting(approvals: seq<Approval>, rid: nat, status: ApprovalStatus): seq<Approval> {
    seq(|approvals|, i requires 0 <= i < |approvals| =>
      if approvals[i].request == rid && approvals[i].status == Awaiting
      then approvals[i].(status := status) else approvals[i])
  }

  function ClaimApproval(db: Db, rid: nat, generation: Option<string>, state: SurfaceState, now: Time,
                         who: Option<Principal>): (Db, bool)
  {
    if rid >= |db.requests| || db.requests[rid].status != PendingApproval then (db, false)
    else
      var row := db.requests[rid];
      var a := ApprovalIndex(db.approvals, rid);
      var awaiting := a < |db.approvals| && db.approvals[a].status == Awaiting;
      if awaiting && db.approvals[a].expiresAt > now && Authorized(db, row, generation, who, Review)
         && row.bound.digest == db.approvals[a].digest
      then
        (PutRequest(db, rid, row.(status := Executing, updatedAt := now))
           .(approvals := db.approvals[a := Answered(db.approvals[a], Approved, Some(state))]), true)
      else
        var late := awaiting && db.approvals[a].expiresAt <= now;
        (PutRequest(db, rid, Ended(row, if late then Expired else Denied,
                                   if late then None else Some("approval_invalidated"), now))
           .(approvals := CloseAwaiting(db.approvals, rid, if late then Lapsed else Cancelled)), false)
  }

  datatype Ending = Ending(status: Status, answer: ApprovalStatus, error: Option<string>)

  /** The broker deadline overrides the verdict a caller brings, and so, before it, does withdrawn authority. */
  function Overruled(db: Db, caller: nat, expiresAt: Time, ending: Ending, now: Time): Ending {
    if now >= expiresAt then Ending(Expired, Lapsed, None)
    else if CallerRevoked(db, caller) || !HasActiveToken(db, caller) then Ending(Expired, Cancelled, None)
    else ending
  }

  /** Both rows finish together or not at all. */
  function FinishPending(db: Db, rid: nat, ending: Ending, state: Option<SurfaceState>, now: Time,
                         deadlineOnly: bool): (Db, bool)
  {
    var a := ApprovalIndex(db.approvals, rid);
    if || rid >= |db.requests| || a >= |db.approvals|
       || db.requests[rid].status != PendingApproval || db.approvals[a].status != Awaiting
       || (deadlineOnly && db.approvals[a].expiresAt > now)
    then (db, false)
    else
      var row, app := db.requests[rid], db.approvals[a];
      var ending := Overruled(db, row.bound.caller, app.expiresAt, ending, now);
      (PutRequest(db, rid, Ended(row, ending.status, ending.error, now))
         .(approvals := db.approvals[a := Answered(app, ending.answer, state)]), true)
  }

  /** The unconditional update: it checks nothing about the row it overwrites. */
  function UpdateRequest(db: Db, rid: nat, status: Status, error: Option<string>, result: Option<string>,
                         now: Time): Db
  {
    if rid >= |db.requests| then db
    else
      var row := db.requests[rid];
      PutRequest(db, rid, row.(
        status := status,
        error := if error.Some? then error else row.error,
        result := if result.Some? then result else row.result,
        arguments := if Terminal(status) then None else row.arguments,
        action := if Terminal(status) then None else row.action,
        updatedAt := now))
  }

  function CreateApproval(db: Db, rid: nat, ref: string, expiresAt: Time, digest: Digest): Option<Db> {
    if rid >= |db.requests| then None
    else Some(db.(approvals := db.approvals + [Approval(rid, ref, digest, expiresAt, Awaiting, None, None, None)]))
  }

  // ---- maintenance --------------------------------------------------------------------------------

  predicate Prunable(row: Request, now: Time) {
    row.updatedAt < now - PRUNE_AGE && row.prunedAt.None? && Terminal(row.status)
  }

  function Pruned(row: Request, now: Time): Request {
    row.(status := if row.status == Completed then ResultExpired else row.status,
         arguments := None, action := None, result := None, prunedAt := Some(now))
  }

  function Prune(db: Db, now: Time): Db {
    db.(approvals := seq(|db.approvals|, i requires 0 <= i < |db.approvals| =>
          if db.approvals[i].request < |db.requests| && Prunable(db.requests[db.approvals[i].request], now)
          then db.approvals[i].(note := None) else db.approvals[i]),
        requests := seq(|db.requests|, i requires 0 <= i < |db.requests| =>
          if Prunable(db.requests[i], now) then Pruned(db.requests[i], now) else db.requests[i]))
  }

  function Reconciled(row: Request, now: Time): Request {
    if row.status in {Received, Executing}
    then Ended(row, Unknown, Some("offline_reconciled"), now).(result := None) else row
  }

  function Reconcile(db: Db, now: Time): Db {
    db.(requests := seq(|db.requests|, i requires 0 <= i < |db.requests| => Reconciled(db.requests[i], now)))
  }

  function Restored(row: Request, now: Time): Request {
    if row.status == PendingApproval
    then Ended(row, Expired, Some("restore_cancelled"), now).(result := None)
    else if row.status in {Received, Executing}
    then Ended(row, Unknown, Some("restore_unknown"), now).(result := None)
    else row
  }

  /** What a restored snapshot becomes before it is published: no live work, no live authority. */
  function Sanitize(db: Db, now: Time): Db {
    db.(approvals := seq(|db.approvals|, i requires 0 <= i < |db.approvals| =>
          if db.approvals[i].status == Awaiting
          then db.approvals[i].(status := Cancelled, note := None) else db.approvals[i]),
        requests := seq(|db.requests|, i requires 0 <= i < |db.requests| => Restored(db.requests[i], now)),
        tokens := RevokeTokens(db, db.tokens.Keys, now).tokens,
        policies := map c | c in db.policies :: EMPTY_POLICY)
  }
}
