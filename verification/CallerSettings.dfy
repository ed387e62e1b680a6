/** The settings editor (admin/caller_settings.py): a snapshot of one caller's policy against the tool catalog,
    and the edit that commits over exactly that snapshot. */
module CallerSettings {
  import opened Wrappers
  import opened PythonText
  import opened PolicyRules
  import opened BrokerDb
  import opened BrokerColumns
  import opened BrokerStore

  /** A catalogued operation; details stand for its risk and description. */
  datatype Row = Row(op: string, details: string)

  type Catalog = map<string, seq<Row>>

  /** The digest a snapshot carries, over everything the editor was shown. */
  datatype Revision = Revision(installation: string, caller: nat, policy: Policy, catalog: Catalog)

  /** What the editor sends. None stands for a value of the wrong JSON type. */
  datatype Draft = Draft(revision: Revision, enabled: Option<seq<string>>,
                         disabled: Option<map<string, Option<seq<string>>>>,
                         tools: Option<map<string, Option<map<string, string>>>>)

  datatype Outcome = Saved(policy: Policy) | ChangedElsewhere | BadDraft | NoCaller

  function Names(rows: seq<Row>): set<string> {
    set row | row in rows :: row.op
  }

  // ---- checking a draft ---------------------------------------------------------------------------

  predicate Effects(effects: Option<map<string, string>>, names: set<string>) {
    && effects.Some? && effects.value.Keys == names
    && forall op | op in effects.value :: effects.value[op] in {Text(Allow), Text(Review), Text(Deny)}
  }

  predicate ToolOk(catalog: Catalog, draft: Draft, tool: string) {
    && tool in catalog && draft.disabled.Some? && draft.tools.Some?
    && tool in draft.disabled.value && tool in draft.tools.value
    && draft.disabled.value[tool].Some?
    && (forall op | op in draft.disabled.value[tool].value :: op in Names(catalog[tool]))
    && Effects(draft.tools.value[tool], Names(catalog[tool]))
  }

  predicate ToolsOk(catalog: Catalog, draft: Draft, tools: set<string>) {
    forall tool | tool in tools :: ToolOk(catalog, draft, tool)
  }

  predicate ShapeOk(catalog: Catalog, draft: Draft) {
    && draft.enabled.Some? && (forall tool | tool in draft.enabled.value :: tool in catalog)
    && draft.disabled.Some? && draft.tools.Some?
  }

  predicate ScopeOk(catalog: Catalog, draft: Draft)
    requires ShapeOk(catalog, draft)
  {
    draft.disabled.value.Keys == catalog.Keys && draft.tools.value.Keys == catalog.Keys
  }

  predicate DraftOk(catalog: Catalog, draft: Draft) {
    ShapeOk(catalog, draft) && ScopeOk(catalog, draft) && ToolsOk(catalog, draft, catalog.Keys)
  }

  // ---- the edited policy --------------------------------------------------------------------------

  /** The exclusions of a tool: the submitted ones, and any of an operation the catalog does not list. */
  function Exclusions(policy: Policy, catalog: Catalog, draft: Draft, tool: string): seq<string>
    requires ToolOk(catalog, draft, tool)
  {
    var unseen := set op | op in Disabled(policy, tool) && op !in Names(catalog[tool]);
    Sorted(unseen + set op | op in draft.disabled.value[tool].value)
  }

  /** All exclusions after the edit of some of the tools, and likewise all rules. */
  function EditedExclusions(policy: Policy, catalog: Catalog, draft: Draft, done: set<string>): map<string, seq<string>>
    requires ToolsOk(catalog, draft, done)
  {
    var disabled := policy.disabled.GetOr(map[]);
    map tool | tool in disabled.Keys + done ::
      if tool in done then Exclusions(policy, catalog, draft, tool) else disabled[tool]
  }

  function EditedRules(policy: Policy, catalog: Catalog, draft: Draft, done: set<string>): Rulebook
    requires ToolsOk(catalog, draft, done)
  {
    var tools := policy.tools.GetOr(map[]);
    map tool | tool in tools.Keys + done ::
      if tool in done then Rules(policy, tool) + draft.tools.value[tool].value else tools[tool]
  }

  lemma EditOne(policy: Policy, catalog: Catalog, draft: Draft, done: set<string>, tool: string)
    requires ToolsOk(catalog, draft, done) && tool !in done && ToolOk(catalog, draft, tool)
    ensures ToolsOk(catalog, draft, done + {tool})
    ensures var tools := EditedRules(policy, catalog, draft, done);
            && (if tool in tools then tools[tool] else map[]) == Rules(policy, tool)
            && EditedRules(policy, catalog, draft, done + {tool})
            == tools[tool := Rules(policy, tool) + draft.tools.value[tool].value]
    ensures var disabled := EditedExclusions(policy, catalog, draft, done);
            && (if tool in disabled then disabled[tool] else []) == Disabled(policy, tool)
            && EditedExclusions(policy, catalog, draft, done + {tool})
            == disabled[tool := Exclusions(policy, catalog, draft, tool)]
  {
    hide Exclusions, ToolOk;
    var disabled := EditedExclusions(policy, catalog, draft, done)[tool := Exclusions(policy, catalog, draft, tool)];
    assert EditedExclusions(policy, catalog, draft, done + {tool}) == disabled;
  }

  function Edited(policy: Policy, catalog: Catalog, draft: Draft): Policy
    requires DraftOk(catalog, draft)
  {
    Policy(Some(EditedRules(policy, catalog, draft, catalog.Keys)),
           Some(Sorted(EnabledTools(policy) - catalog.Keys + set tool | tool in draft.enabled.value)),
           Some(EditedExclusions(policy, catalog, draft, catalog.Keys)))
  }

  function Prepared(policy: Policy, catalog: Catalog, draft: Draft): Outcome {
    if !ShapeOk(catalog, draft) then BadDraft
    else if !ScopeOk(catalog, draft) then ChangedElsewhere
    else if !DraftOk(catalog, draft) then BadDraft
    else Saved(Edited(policy, catalog, draft))
  }

  method EditPolicy(policy: Policy, catalog: Catalog, draft: Draft) returns (r: Outcome)
    ensures r == Prepared(policy, catalog, draft)
  {
    if !ShapeOk(catalog, draft) {
      return BadDraft;
    }
    if draft.disabled.value.Keys != catalog.Keys || draft.tools.value.Keys != catalog.Keys {
      return ChangedElsewhere;
    }
    var enabled := Sorted(EnabledTools(policy) - catalog.Keys + set tool | tool in draft.enabled.value);
    var tools, disabled := policy.tools.GetOr(map[]), policy.disabled.GetOr(map[]);
    var todo := catalog.Keys;
    ghost var done := {};
    while todo != {}
      invariant todo !! done && todo + done == catalog.Keys
      invariant ToolsOk(catalog, draft, done)
      invariant tools == EditedRules(policy, catalog, draft, done)
      invariant disabled == EditedExclusions(policy, catalog, draft, done)
    {
      var tool :| tool in todo;
      var names := Names(catalog[tool]);
      var excluded, effects := draft.disabled.value[tool], draft.tools.value[tool];
      if excluded.None? || (exists op | op in excluded.value :: op !in names) || !Effects(effects, names) {
        assert !ToolOk(catalog, draft, tool);
        return BadDraft;
      }
      hide Names, Effects, EditedRules, EditedExclusions, ShapeOk;
      EditOne(policy, catalog, draft, done, tool);
      var prior := if tool in disabled then disabled[tool] else [];
      var unseen := set op | op in prior && op !in names;
      disabled := disabled[tool := Sorted(unseen + set op | op in excluded.value)];
      tools := tools[tool := (if tool in tools then tools[tool] else map[]) + effects.value];
      todo, done := todo - {tool}, done + {tool};
    }
    assert done == catalog.Keys;
    return Saved(Policy(Some(tools), Some(enabled), Some(disabled)));
  }

  // ---- which drafts are accepted ------------------------------------------------------------------

  predicate Listed(rows: seq<Row>, op: string) {
    exists i | 0 <= i < |rows| :: rows[i].op == op
  }

  /** Of a tool, exclusions of catalogued operations only, and one known effect for each catalogued operation. */
  ghost predicate WellFormed(rows: seq<Row>, excluded: Option<seq<string>>, effects: Option<map<string, string>>) {
    && excluded.Some? && (forall i | 0 <= i < |excluded.value| :: Listed(rows, excluded.value[i]))
    && effects.Some? && (forall op :: op in effects.value <==> Listed(rows, op))
    && forall op | op in effects.value ::
         effects.value[op] == "allow" || effects.value[op] == "review" || effects.value[op] == "deny"
  }

  /** A draft is accepted exactly if it enables catalogued tools only and, for each catalogued tool and no other,
      brings exclusions and effects that fit the catalog. Of the rest, those that leave out or add a tool are answered
      as changed elsewhere. */
  lemma DraftExactly(policy: Policy, catalog: Catalog, draft: Draft)
    ensures Prepared(policy, catalog, draft).Saved? <==>
              && draft.enabled.Some? && (forall i | 0 <= i < |draft.enabled.value| :: draft.enabled.value[i] in catalog)
              && draft.disabled.Some? && draft.tools.Some?
              && draft.disabled.value.Keys == draft.tools.value.Keys == catalog.Keys
              && forall tool | tool in catalog ::
                   WellFormed(catalog[tool], draft.disabled.value[tool], draft.tools.value[tool])
    ensures Prepared(policy, catalog, draft) == ChangedElsewhere <==>
              && draft.enabled.Some? && (forall i | 0 <= i < |draft.enabled.value| :: draft.enabled.value[i] in catalog)
              && draft.disabled.Some? && draft.tools.Some?
              && (draft.disabled.value.Keys != catalog.Keys || draft.tools.value.Keys != catalog.Keys)
    ensures Prepared(policy, catalog, draft) != NoCaller
  {
    hide Edited;
    if ShapeOk(catalog, draft) && ScopeOk(catalog, draft) {
      forall tool | tool in catalog
        ensures ToolOk(catalog, draft, tool)
           <==> WellFormed(catalog[tool], draft.disabled.value[tool], draft.tools.value[tool])
      {
        ToolExactly(catalog, draft, tool);
      }
    }
    hide ToolOk, WellFormed;
  }

  lemma ToolExactly(catalog: Catalog, draft: Draft, tool: string)
    requires tool in catalog && draft.disabled.Some? && draft.tools.Some?
    requires tool in draft.disabled.value && tool in draft.tools.value
    ensures ToolOk(catalog, draft, tool)
       <==> WellFormed(catalog[tool], draft.disabled.value[tool], draft.tools.value[tool])
  {
    var rows := catalog[tool];
    assert forall op :: op in Names(rows) <==> Listed(rows, op);
    hide Names, Listed;
  }

  // ---- what an edit means -------------------------------------------------------------------------

  /** What the draft says of a catalogued operation. */
  function Submitted(draft: Draft, tool: string, op: string): Effect
    requires draft.enabled.Some? && draft.disabled.Some? && draft.tools.Some?
    requires tool in draft.disabled.value && draft.disabled.value[tool].Some?
    requires tool in draft.tools.value && draft.tools.value[tool].Some? && op in draft.tools.value[tool].value
  {
    if tool !in draft.enabled.value || op in draft.disabled.value[tool].value then Deny
    else Norm(Some(draft.tools.value[tool].value[op]))
  }

  /** Every catalogued operation is decided as submitted. */
  lemma SeenAsSubmitted(policy: Policy, catalog: Catalog, draft: Draft, tool: string, op: string)
    requires DraftOk(catalog, draft) && tool in catalog && op in Names(catalog[tool])
    ensures ToolOk(catalog, draft, tool)
    ensures Decide(Edited(policy, catalog, draft), tool, op) == Submitted(draft, tool, op)
  {
  }

  /** A tool the catalog does not list is decided as before, whether the policy was legacy or managed. */
  lemma UnseenToolKept(policy: Policy, catalog: Catalog, draft: Draft, tool: string, op: string)
    requires DraftOk(catalog, draft) && tool !in catalog
    ensures Decide(Edited(policy, catalog, draft), tool, op) == Decide(policy, tool, op)
  {
  }

  /** An unlisted operation of a listed tool keeps its ruling, subject only to the tool's enablement; so when
      that did not change, nor did the decision. */
  lemma UnseenOperationKept(policy: Policy, catalog: Catalog, draft: Draft, tool: string, op: string)
    requires DraftOk(catalog, draft) && tool in catalog && op !in Names(catalog[tool])
    ensures Decide(Edited(policy, catalog, draft), tool, op)
         == if tool in draft.enabled.value then Ruling(policy, tool, op) else Deny
    ensures (tool in draft.enabled.value <==> tool in EnabledTools(policy)) ==>
              Decide(Edited(policy, catalog, draft), tool, op) == Decide(policy, tool, op)
  {
  }

  /** Over a catalog of undotted tools, an edit adds no dotted tool id. */
  lemma EditedUndotted(policy: Policy, catalog: Catalog, draft: Draft)
    requires DraftOk(catalog, draft) && Undotted(policy.tools.GetOr(map[]))
    requires forall tool | tool in catalog :: '.' !in tool
    ensures Undotted(Edited(policy, catalog, draft).tools.value)
  {
  }

  // ---- committing it ------------------------------------------------------------------------------

  function Applied(db: Db, installation: string, catalog: Catalog, name: string, draft: Draft, now: Time): (Db, Outcome)
  {
    var id := NameIndex(db.callers, name);
    if CallerRevoked(db, id) then (db, NoCaller)
    else
      var policy := PolicyFor(db, id);
      if draft.revision != Revision(installation, id, policy, catalog) then (db, ChangedElsewhere)
      else
        match Prepared(policy, catalog, draft)
        case Saved(after) => (WritePolicy(db, id, after, now), Saved(after))
        case other => (db, other)
  }

  method Apply(store: Store, installation: string, catalog: Catalog, name: string, draft: Draft, now: Time)
    returns (r: Outcome)
    modifies store
    ensures (store.Tables(), r) == Applied(old(store.Tables()), installation, catalog, name, draft, now)
  {
    hide Prepared;
    var id := NameIndex(store.callers, name);
    if id == |store.callers| || store.callers[id].revokedAt.Some? {
      return NoCaller;
    }
    var policy := PolicyFor(store.Tables(), id);
    if draft.revision != Revision(installation, id, policy, catalog) {
      return ChangedElsewhere;
    }
    r := EditPolicy(policy, catalog, draft);
    if r.Saved? {
      var committed := store.CompareAndSetPolicy(id, policy, r.policy, now);
      if !committed {
        return ChangedElsewhere;
      }
    }
  }

  /** An edit is saved exactly for an unrevoked caller, over the very snapshot the editor was shown and by an accepted
      draft; it then commits the edited policy as a policy write does. A stale snapshot, like any refusal, writes
      nothing. */
  lemma AppliesExactly(db: Db, installation: string, catalog: Catalog, name: string, draft: Draft, now: Time)
    ensures var (db', r) := Applied(db, installation, catalog, name, draft, now);
            var id := NameIndex(db.callers, name);
            && (r == NoCaller <==> id == |db.callers| || db.callers[id].revokedAt.Some?)
            && (r.Saved? <==>
                  && id < |db.callers| && db.callers[id].revokedAt == None
                  && draft.revision.installation == installation && draft.revision.caller == id
                  && StoredPolicy(db, id, draft.revision.policy) && draft.revision.catalog == catalog
                  && Prepared(draft.revision.policy, catalog, draft).Saved?)
            && (r.Saved? ==> Prepared(draft.revision.policy, catalog, draft) == r
                             && PolicyWritten(db, db', id, r.policy, now))
            && (!r.Saved? ==> db' == db)
  {
    var id := NameIndex(db.callers, name);
    DraftExactly(PolicyFor(db, id), catalog, draft);
    hide Prepared, WritePolicy, PolicyWritten, NameIndex, WellFormed;
    if Applied(db, installation, catalog, name, draft, now).1.Saved? {
      PolicyWriteSo(db, id, Applied(db, installation, catalog, name, draft, now).1.policy, now);
    }
  }

  /** Whatever other processes wrote since the snapshot, the edit lands only over the very policy it was
      computed from; so what the editor could not see stays as it is stored at that moment. */
  lemma CommitKeepsUnseen(db: Db, caller: nat, policy: Policy, catalog: Catalog, draft: Draft, now: Time,
                          tool: string, op: string)
    requires DraftOk(catalog, draft) && tool !in catalog
    ensures var (db', committed) := CompareAndSetPolicy(db, caller, policy, Edited(policy, catalog, draft), now);
            && (!committed ==> db' == db)
            && (committed ==> PolicyFor(db, caller) == policy)
            && Decide(PolicyFor(db', caller), tool, op) == Decide(PolicyFor(db, caller), tool, op)
            && forall other: nat | other != caller :: PolicyFor(db', other) == PolicyFor(db, other)
  {
    UnseenToolKept(policy, catalog, draft, tool, op);
    hide Edited, Decide, DraftOk;
  }
}
