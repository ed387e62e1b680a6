/** broker/store.py, class Store: each method runs one transaction step by step and commits exactly the
    state the transaction functions of BrokerDb describe. */
module BrokerStore {
  import opened Wrappers
  import opened PolicyRules
  import opened BrokerDb

  class Store {
    var callers: seq<CallerRow>
    var tokens: map<string, TokenRow>
    var policies: map<nat, Policy>
    var requests: seq<Request>
    var approvals: seq<Approval>

    /** The committed tables. */
    function Tables(): Db
      reads this
    {
      Db(callers, tokens, policies, requests, approvals)
    }

    constructor ()
      ensures Tables() == EMPTY_DB
    {
      callers, tokens, policies, requests, approvals := [], map[], map[], [], [];
    }

    // ---- callers, tokens, policies ----------------------------------------------------------------

    method AddCaller(name: string) returns (id: Option<nat>)
      modifies this
      ensures match BrokerDb.AddCaller(old(Tables()), name)
              case None => id == None && Tables() == old(Tables())
              case Some((db, caller)) => id == Some(caller) && Tables() == db
    {
      if exists i | 0 <= i < |callers| :: callers[i].name == name {
        return None;
      }
      id := Some(|callers|);
      callers := callers + [CallerRow(name, None)];
    }

    method AddToken(caller: nat, hash: string) returns (ok: bool)
      modifies this
      ensures match BrokerDb.AddToken(old(Tables()), caller, hash)
              case None => !ok && Tables() == old(Tables())
              case Some(db) => ok && Tables() == db
    {
      ok := hash !in tokens && caller < |callers|;
      if ok {
        tokens := tokens[hash := TokenRow(caller, None)];
      }
    }

    method RevokeCaller(name: string, now: Time)
      modifies this
      ensures Tables() == BrokerDb.RevokeCaller(old(Tables()), name, now)
    {
      var rows := callers;
      callers := seq(|rows|, i requires 0 <= i < |rows| =>
        if rows[i].name == name && rows[i].revokedAt.None? then rows[i].(revokedAt := Some(now)) else rows[i]);
    }

    method RevokeTokens(hashes: set<string>, now: Time)
      modifies this
      ensures Tables() == BrokerDb.RevokeTokens(old(Tables()), hashes, now)
    {
      tokens := map hash | hash in tokens ::
        if hash in hashes && tokens[hash].revokedAt.None?
        then tokens[hash].(revokedAt := Some(now)) else tokens[hash];
    }

    method SetPolicy(caller: nat, policy: Policy, now: Time)
      modifies this
      ensures Tables() == WritePolicy(old(Tables()), caller, policy, now)
    {
      policies := policies[caller := policy];
      var awaiting := approvals;
      approvals := seq(|awaiting|, i requires 0 <= i < |awaiting| reads this =>
        if Invalidated(Tables(), caller, awaiting[i]) then awaiting[i].(status := Cancelled) else awaiting[i]);
      var pending := requests;
      requests := seq(|pending|, i requires 0 <= i < |pending| =>
        if pending[i].bound.caller == caller && pending[i].status == PendingApproval
        then Ended(pending[i], Denied, Some("approval_invalidated"), now) else pending[i]);
    }

    method CompareAndSetPolicy(caller: nat, before: Policy, after: Policy, now: Time) returns (committed: bool)
      modifies this
      ensures (Tables(), committed) == BrokerDb.CompareAndSetPolicy(old(Tables()), caller, before, after, now)
    {
      if CallerRevoked(Tables(), caller) || PolicyFor(Tables(), caller) != before {
        return false;
      }
      SetPolicy(caller, after, now);
      return true;
    }

    // ---- reservation and claims -------------------------------------------------------------------

    method ReserveAction(who: Principal, tool: string, op: string, arguments: string, reason: Option<string>,
                         generation: string, key: Option<string>, nonce: string, now: Time)
      returns (answer: Reservation)
      modifies this
      ensures (Tables(), answer)
           == Reserve(old(Tables()), who, tool, op, arguments, reason, generation, key, nonce, now)
    {
      if !ValidKey(key) {
        return BadKey;
      }
      if !Live(Tables(), who.id, Some(who)) {
        return NoAuthority;
      }
      var policy := PolicyFor(Tables(), who.id);
      if key.Some? {
        var prior := KeyIndex(requests, who.id, key.value);
        if prior < |requests| {
          var row := requests[prior];
          if Decide(policy, row.bound.tool, row.bound.op) == Deny {
            return NoAuthority;
          }
          return Receipt(prior, false, row.bound.payload != Payload(tool, op, arguments, reason));
        }
      }
      answer := Receipt(|requests|, true, false);
      requests := requests
        + [NewRequest(Tables(), who, tool, op, arguments, reason, generation, key, nonce, now)];
    }

    method ClaimReceived(rid: nat, generation: Option<string>, who: Option<Principal>, expected: Digest, now: Time)
      returns (claimed: bool)
      modifies this
      ensures (Tables(), claimed) == BrokerDb.ClaimReceived(old(Tables()), rid, generation, who, expected, now)
    {
      if rid >= |requests| || requests[rid].status != Received {
        return false;
      }
      var row := requests[rid];
      claimed := Live(Tables(), row.bound.caller, who) && generation.Some? && generation.value != ""
                 && row.bound.generation == generation.value && row.bound.digest == expected
                 && BoundTo(row, generation.value);
      if claimed {
        var policy := PolicyFor(Tables(), row.bound.caller);
        claimed := policy == row.bound.policy && Decide(policy, row.bound.tool, row.bound.op) == Allow;
      }
      if claimed {
        requests := requests[rid := row.(status := Executing, updatedAt := now)];
      } else {
        requests := requests[rid := Ended(row, Denied, Some("authority_changed"), now)];
      }
    }

    method ClaimApproval(rid: nat, generation: Option<string>, state: SurfaceState, now: Time,
                         who: Option<Principal>)
      returns (claimed: bool)
      modifies this
      ensures (Tables(), claimed) == BrokerDb.ClaimApproval(old(Tables()), rid, generation, state, now, who)
    {
      hide Decide, CloseAwaiting;
      if rid >= |requests| || requests[rid].status != PendingApproval {
        return false;
      }
      var row := requests[rid];
      var a := ApprovalIndex(approvals, rid);
      claimed := a < |approvals| && approvals[a].status == Awaiting && approvals[a].expiresAt > now
                 && Live(Tables(), row.bound.caller, who) && generation.Some? && generation.value != ""
                 && row.bound.generation == generation.value && row.bound.digest == approvals[a].digest;
      if claimed {
        claimed := BoundTo(row, generation.value);
      }
      if claimed {
        var policy := PolicyFor(Tables(), row.bound.caller);
        claimed := row.bound.policy == policy && Decide(policy, row.bound.tool, row.bound.op) == Review;
      }
      if !claimed {
        var late := a < |approvals| && approvals[a].status == Awaiting && approvals[a].expiresAt <= now;
        requests := requests[rid := Ended(row, if late then Expired else Denied,
                                          if late then None else Some("approval_invalidated"), now)];
        approvals := CloseAwaiting(approvals, rid, if late then Lapsed else Cancelled);
        return;
      }
      requests := requests[rid := row.(status := Executing, updatedAt := now)];
      approvals := approvals[a := Answered(approvals[a], Approved, Some(state))];
    }

    method FinishPending(rid: nat, ending: Ending, state: Option<SurfaceState>, now: Time, deadlineOnly: bool)
      returns (finished: bool)
      modifies this
      ensures (Tables(), finished)
           == BrokerDb.FinishPending(old(Tables()), rid, ending, state, now, deadlineOnly)
    {
      var a := ApprovalIndex(approvals, rid);
      if || rid >= |requests| || a >= |approvals|
         || requests[rid].status != PendingApproval || approvals[a].status != Awaiting
         || (deadlineOnly && approvals[a].expiresAt > now)
      {
        return false;
      }
      var row, app := requests[rid], approvals[a];
      var last := ending;
      if now >= app.expiresAt {
        last := Ending(Expired, Lapsed, None);
      } else if CallerRevoked(Tables(), row.bound.caller) || !HasActiveToken(Tables(), row.bound.caller) {
        last := Ending(Expired, Cancelled, None);
      }
      assert last == Overruled(old(Tables()), row.bound.caller, app.expiresAt, ending, now);
      requests := requests[rid := Ended(row, last.status, last.error, now)];
      approvals := approvals[a := Answered(app, last.answer, state)];
      return true;
    }

    method UpdateRequest(rid: nat, status: Status, error: Option<string>, result: Option<string>, now: Time)
      modifies this
      ensures Tables() == BrokerDb.UpdateRequest(old(Tables()), rid, status, error, result, now)
    {
      if rid < |requests| {
        var row := requests[rid].(status := status, updatedAt := now);
        if error.Some? {
          row := row.(error := error);
        }
        if result.Some? {
          row := row.(result := result);
        }
        if Terminal(status) {
          row := row.(arguments := None, action := None);
        }
        requests := requests[rid := row];
      }
    }

    method CreateApproval(rid: nat, ref: string, expiresAt: Time, digest: Digest) returns (ok: bool)
      modifies this
      ensures match BrokerDb.CreateApproval(old(Tables()), rid, ref, expiresAt, digest)
              case None => !ok && Tables() == old(Tables())
              case Some(db) => ok && Tables() == db
    {
      ok := rid < |requests|;
      if ok {
        approvals := approvals + [Approval(rid, ref, digest, expiresAt, Awaiting, None, None, None)];
      }
    }

    // ---- maintenance ------------------------------------------------------------------------------

    method PrunePayloads(now: Time) returns (count: nat)
      modifies this
      ensures Tables() == Prune(old(Tables()), now)
      ensures count == |set i | 0 <= i < |old(requests)| && Prunable(old(requests)[i], now)|
    {
      var apps := approvals;
      approvals := seq(|apps|, i requires 0 <= i < |apps| reads this =>
        if apps[i].request < |requests| && Prunable(requests[apps[i].request], now)
        then apps[i].(note := None) else apps[i]);
      count := |set i | 0 <= i < |requests| && Prunable(requests[i], now)|;
      var rows := requests;
      requests := seq(|rows|, i requires 0 <= i < |rows| =>
        if Prunable(rows[i], now) then Pruned(rows[i], now) else rows[i]);
    }

    /** The operator asserts every other writer is stopped. */
    method ReconcileOffline(now: Time)
      modifies this
      ensures Tables() == Reconcile(old(Tables()), now)
    {
      var rows := requests;
      requests := seq(|rows|, i requires 0 <= i < |rows| => Reconciled(rows[i], now));
    }

    /** The transformation a restored copy undergoes, statement by statement. */
    method SanitizeRestored(now: Time)
      modifies this
      ensures Tables() == Sanitize(old(Tables()), now)
    {
      var apps := approvals;
      approvals := seq(|apps|, i requires 0 <= i < |apps| =>
        if apps[i].status == Awaiting then apps[i].(status := Cancelled, note := None) else apps[i]);
      var rows := requests;
      requests := seq(|rows|, i requires 0 <= i < |rows| =>
        if rows[i].status == PendingApproval
        then Ended(rows[i], Expired, Some("restore_cancelled"), now).(result := None) else rows[i]);
      rows := requests;
      requests := seq(|rows|, i requires 0 <= i < |rows| =>
        if rows[i].status in {Received, Executing}
        then Ended(rows[i], Unknown, Some("restore_unknown"), now).(result := None) else rows[i]);
      RevokeTokens(tokens.Keys, now);
      policies := map c | c in policies :: EMPTY_POLICY;
    }
  }
}
