/** What the store promises about receipts over time: an idempotency key answers as a function, and pruning is
    invisible to it (broker/store.py, reserve_action and prune_payloads). */
module Retention {
  import opened Wrappers
  import opened PolicyRules
  import opened BrokerDb
  import opened BrokerInvariant
  import opened Protocol
  import opened ProtocolInvariant
  import opened ProtocolSafety

  // ---- an idempotency key is a function -----------------------------------------------------------

  /** The receipt a used key is entitled to: the original request, in conflict exactly when the payload
      differs; refused when the caller is not live or the original operation is now denied. */
  function ReceiptOf(db: Db, who: Principal, rid: nat, payload: Payload): Reservation
    requires rid < |db.requests|
  {
    var b := db.requests[rid].bound;
    if !Live(db, who.id, Some(who)) || Decide(PolicyFor(db, who.id), b.tool, b.op) == Deny then NoAuthority
    else Receipt(rid, false, b.payload != payload)
  }

  predicate KeyUsed(db: Db, caller: nat, key: string, rid: nat) {
    rid < |db.requests| && db.requests[rid].bound.caller == caller && db.requests[rid].bound.key == Some(key)
  }

  /** A used key never creates a request or changes anything, whatever generation the retry carries. */
  lemma KeyAnswers(db: Db, who: Principal, tool: string, op: string, arguments: string, reason: Option<string>,
                   generation: string, key: string, nonce: string, now: Time, rid: nat)
    requires KeysOk(db) && KeyUsed(db, who.id, key, rid) && ValidKey(Some(key))
    ensures Reserve(db, who, tool, op, arguments, reason, generation, Some(key), nonce, now)
         == (db, ReceiptOf(db, who, rid, Payload(tool, op, arguments, reason)))
  {
  }

  /** Over any run, whatever reloads, reconciles and prunes happened in between, a key that was used once
      keeps answering with the same request and the same payload comparison. */
  lemma KeyAnswersForever(states: seq<System>, steps: seq<Step>, j: nat, k: nat, who: Principal, tool: string,
                          op: string, arguments: string, reason: Option<string>, generation: string, key: string,
                          nonce: string, now: Time, rid: nat)
    requires Run(states, steps) && Inv(states[0]) && j <= k < |states|
    requires KeyUsed(states[j].db, who.id, key, rid) && ValidKey(Some(key))
    ensures KeyUsed(states[k].db, who.id, key, rid)
    ensures states[k].db.requests[rid].bound.payload == states[j].db.requests[rid].bound.payload
    ensures Reserve(states[k].db, who, tool, op, arguments, reason, generation, Some(key), nonce, now)
         == (states[k].db, ReceiptOf(states[k].db, who, rid, Payload(tool, op, arguments, reason)))
  {
    hide Next, Reserve;
    RunInv(states, steps, k);
    RunEvolves(states, steps, j, k);
    assert RowEvolves(states[j].db.requests[rid], states[k].db.requests[rid]);
    KeyAnswers(states[k].db, who, tool, op, arguments, reason, generation, key, nonce, now, rid);
  }

  // ---- pruning ------------------------------------------------------------------------------------

  lemma {:induction false} SameKeyIndex(rows: seq<Request>, rows': seq<Request>, caller: nat, key: string)
    requires |rows'| == |rows| && forall i | 0 <= i < |rows| :: rows'[i].bound == rows[i].bound
    ensures KeyIndex(rows', caller, key) == KeyIndex(rows, caller, key)
  {
  }

  lemma PrunedAuthority(db: Db, pruned: Time, who: Principal)
    ensures var db' := Prune(db, pruned);
            && Live(db', who.id, Some(who)) == Live(db, who.id, Some(who))
            && db'.policies == db.policies && |db'.requests| == |db.requests|
            && forall i | 0 <= i < |db.requests| :: db'.requests[i].bound == db.requests[i].bound
  {
    assert HasActiveToken(Prune(db, pruned), who.id) == HasActiveToken(db, who.id);
  }

  /** Pruning never changes what a reservation answers: the id, created and conflict it returns. */
  lemma PruneInvisible(db: Db, pruned: Time, who: Principal, tool: string, op: string, arguments: string,
                       reason: Option<string>, generation: string, key: Option<string>, nonce: string, now: Time)
    ensures Reserve(Prune(db, pruned), who, tool, op, arguments, reason, generation, key, nonce, now).1
         == Reserve(db, who, tool, op, arguments, reason, generation, key, nonce, now).1
  {
    var db' := Prune(db, pruned);
    PrunedAuthority(db, pruned, who);
    hide Prune, Live, Decide, NewRequest;
    if key.Some? {
      SameKeyIndex(db.requests, db'.requests, who.id, key.value);
    }
  }

  /** Pruning touches no row that can still act, keeps every row's bound columns, and never shows a result
      again once it expired. */
  lemma PruneSparesActive(db: Db, now: Time, rid: nat)
    requires rid < |db.requests|
    ensures var row, row' := db.requests[rid], Prune(db, now).requests[rid];
            && row'.bound == row.bound && row'.updatedAt == row.updatedAt
            && (!Terminal(row.status) ==> row' == row)
            && (row' != row ==> row'.result == None && row'.arguments == None && row'.action == None
                                && row'.prunedAt == Some(now) && row'.status != Completed)
  {
  }

  /** Pruning twice at one reading is pruning once. */
  lemma PruneIdempotent(db: Db, now: Time)
    ensures Prune(Prune(db, now), now) == Prune(db, now)
  {
  }
}
