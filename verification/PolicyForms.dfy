/** Policies written as lists of "tool.operation" grants (broker/operations.py) and the web forms that edit them
    (admin/policy_edits.py). */
module PolicyForms {
  import opened Wrappers
  import opened PythonText
  import opened PolicyRules
  import opened BrokerDb
  import opened BrokerStore
  import CallerSettings

  // ---- grants to rules ----------------------------------------------------------------------------

  function Grant(tool: string, op: string): string {
    tool + "." + op
  }

  /** One grant, split at its first dot, given an effect. */
  function Placed(tools: Rulebook, spec: string, effect: string): Rulebook {
    var (tool, op) := (Before(spec, '.'), After(spec, '.'));
    tools[tool := (if tool in tools then tools[tool] else map[])[op := effect]]
  }

  function PlacedAll(tools: Rulebook, specs: seq<string>, effect: string): Rulebook {
    if specs == [] then tools
    else Placed(PlacedAll(tools, specs[..|specs| - 1], effect), specs[|specs| - 1], effect)
  }

  function Built(allow: seq<string>, review: seq<string>, deny: seq<string>): Rulebook {
    PlacedAll(PlacedAll(PlacedAll(map[], review, Text(Review)), allow, Text(Allow)), deny, Text(Deny))
  }

  method BuildPolicy(allow: seq<string>, review: seq<string>, deny: seq<string>) returns (tools: Rulebook)
    ensures tools == Built(allow, review, deny)
  {
    tools := map[];
    var passes := [(Text(Review), review), (Text(Allow), allow), (Text(Deny), deny)];
    ghost var stages := [map[], PlacedAll(map[], review, Text(Review)),
                         PlacedAll(PlacedAll(map[], review, Text(Review)), allow, Text(Allow)),
                         Built(allow, review, deny)];
    for i := 0 to 3
      invariant tools == stages[i]
    {
      var (effect, specs) := passes[i];
      for j := 0 to |specs|
        invariant tools == PlacedAll(stages[i], specs[..j], effect)
      {
        var spec := specs[j];
        assert specs[..j + 1][..j] == specs[..j];
        var (tool, op) := (Before(spec, '.'), After(spec, '.'));
        if tool !in tools {
          tools := tools[tool := map[]];
        }
        tools := tools[tool := tools[tool][op := effect]];
      }
      assert specs[..|specs|] == specs;
    }
  }

  predicate Targets(specs: seq<string>, tool: string, op: string) {
    exists spec | spec in specs :: Before(spec, '.') == tool && After(spec, '.') == op
  }

  lemma {:induction false} PlacedRules(tools: Rulebook, specs: seq<string>, effect: string, tool: string, op: string)
    ensures RuleAt(PlacedAll(tools, specs, effect), tool, op)
         == if Targets(specs, tool, op) then Some(effect) else RuleAt(tools, tool, op)
  {
    hide Before, After;
    if specs != [] {
      var rest, last := specs[..|specs| - 1], specs[|specs| - 1];
      PlacedRules(tools, rest, effect, tool, op);
      assert forall spec :: spec in specs <==> spec in rest || spec == last;
    }
  }

  /** A grant in several lists takes the last: deny over allow over review. */
  lemma BuiltRules(allow: seq<string>, review: seq<string>, deny: seq<string>, tool: string, op: string)
    ensures RuleAt(Built(allow, review, deny), tool, op)
         == if Targets(deny, tool, op) then Some(Text(Deny))
            else if Targets(allow, tool, op) then Some(Text(Allow))
            else if Targets(review, tool, op) then Some(Text(Review))
            else None
  {
    hide Targets;
    var reviewed := PlacedAll(map[], review, Text(Review));
    PlacedRules(map[], review, Text(Review), tool, op);
    PlacedRules(reviewed, allow, Text(Allow), tool, op);
    PlacedRules(PlacedAll(reviewed, allow, Text(Allow)), deny, Text(Deny), tool, op);
  }

  /** set_policy replaces the rules and keeps enablement and exclusions. */
  function Ruled(before: Policy, tools: Rulebook): Policy {
    Policy(Some(tools), before.enabled, before.disabled)
  }

  /** Another process may commit a policy of the caller between two transactions. */
  function Interfered(db: Db, caller: nat, other: Option<Policy>, now: Time): Db {
    if other.Some? then WritePolicy(db, caller, other.value, now) else db
  }

  /** Enablement and exclusions are read in one transaction and written in the next; nothing is compared. */
  method SetPolicy(store: Store, name: string, allow: seq<string>, review: seq<string>, deny: seq<string>,
                   other: Option<Policy>, now: Time)
    returns (found: bool)
    modifies store
    ensures var db := old(store.Tables()); var id := NameIndex(db.callers, name);
            && found == (id < |db.callers|)
            && store.Tables()
            == if found then WritePolicy(Interfered(db, id, other, now), id,
                                         Ruled(PolicyFor(db, id), Built(allow, review, deny)), now)
               else db
  {
    var id := NameIndex(store.callers, name);
    if id == |store.callers| {
      return false;
    }
    var tools := BuildPolicy(allow, review, deny);
    var before := PolicyFor(store.Tables(), id);
    if other.Some? {
      store.SetPolicy(id, other.value, now);
    }
    store.SetPolicy(id, Ruled(before, tools), now);
    return true;
  }

  // ---- the form's fields --------------------------------------------------------------------------

  datatype Pair = Pair(tool: string, op: string)

  type FieldMap = map<string, Option<Pair>>

  function FieldKey(pair: Pair): string {
    "op__" + pair.tool + "__" + pair.op
  }

  /** One more operation: a key two operations share stands for neither. */
  function Mapped(fields: FieldMap, pair: Pair): FieldMap {
    var key := FieldKey(pair);
    fields[key := if key in fields && fields[key] != Some(pair) then None else Some(pair)]
  }

  function MappedAll(pairs: seq<Pair>): FieldMap {
    if pairs == [] then map[] else Mapped(MappedAll(pairs[..|pairs| - 1]), pairs[|pairs| - 1])
  }

  function PairsOf(tool: string, ops: seq<string>): seq<Pair> {
    seq(|ops|, i requires 0 <= i < |ops| => Pair(tool, ops[i]))
  }

  /** The catalogued operations of some tools. */
  function Editable(tools: seq<string>, catalog: map<string, seq<string>>): seq<Pair> {
    if tools == [] then []
    else
      var last := tools[|tools| - 1];
      Editable(tools[..|tools| - 1], catalog) + PairsOf(last, if last in catalog then catalog[last] else [])
  }

  lemma MappedNext(before: seq<Pair>, tool: string, ops: seq<string>, j: nat)
    requires j < |ops|
    ensures MappedAll(before + PairsOf(tool, ops[..j + 1]))
         == Mapped(MappedAll(before + PairsOf(tool, ops[..j])), Pair(tool, ops[j]))
  {
    var seen := before + PairsOf(tool, ops[..j]);
    assert before + PairsOf(tool, ops[..j + 1]) == seen + [Pair(tool, ops[j])];
    assert (seen + [Pair(tool, ops[j])])[..|seen|] == seen;
  }

  method OperationFields(current: Policy, catalog: map<string, seq<string>>) returns (result: FieldMap)
    ensures result == MappedAll(Editable(Sorted(EnabledTools(current)), catalog))
  {
    result := map[];
    var tools := Sorted(EnabledTools(current));
    hide EnabledTools, Sorted, Mapped;
    for i := 0 to |tools|
      invariant result == MappedAll(Editable(tools[..i], catalog))
    {
      var ops := if tools[i] in catalog then catalog[tools[i]] else [];
      ghost var before := Editable(tools[..i], catalog);
      assert tools[..i + 1][..i] == tools[..i];
      assert before + PairsOf(tools[i], ops[..0]) == before;
      for j := 0 to |ops|
        invariant result == MappedAll(before + PairsOf(tools[i], ops[..j]))
      {
        MappedNext(before, tools[i], ops, j);
        result := Mapped(result, Pair(tools[i], ops[j]));
      }
      assert ops[..|ops|] == ops;
    }
    assert tools[..|tools|] == tools;
  }

  /** A field is written "op__tool__operation". */
  ghost predicate Names(key: string, p: Pair) {
    key == "op__" + p.tool + "__" + p.op
  }

  /** A field names an operation exactly when no other editable operation has the same key. */
  lemma {:induction false} FieldsUnambiguous(pairs: seq<Pair>, key: string)
    ensures key in MappedAll(pairs) <==> exists p | p in pairs :: Names(key, p)
    ensures forall pair :: key in MappedAll(pairs) && MappedAll(pairs)[key] == Some(pair) <==>
              && pair in pairs && Names(key, pair)
              && forall p | p in pairs && Names(key, p) :: p == pair
  {
    if pairs != [] {
      var rest, last := pairs[..|pairs| - 1], pairs[|pairs| - 1];
      FieldsUnambiguous(rest, key);
      assert Names(key, last) <==> FieldKey(last) == key;
      hide FieldKey, Names;
      assert forall p :: p in pairs <==> p in rest || p == last;
    }
  }

  // ---- merging the form ---------------------------------------------------------------------------

  datatype Edit = Edit(pair: Pair, effect: string)

  datatype Merged = Grants(allow: seq<string>, review: seq<string>, deny: seq<string>) | Refused

  predicate Known(effect: string) {
    effect in {Text(Allow), Text(Review), Text(Deny)}
  }

  /** The key splits into three at "__", and names one editable operation. */
  predicate Usable(key: string, effect: string, fieldMap: FieldMap) {
    && Known(effect)
    && (exists i | 4 <= i < |key| - 1 :: key[i] == '_' && key[i + 1] == '_')
    && key in fieldMap && fieldMap[key].Some?
  }

  /** The edits a posted form asks for, in its order; None when any operation field is unusable. */
  function Edits(fields: seq<(string, string)>, fieldMap: FieldMap): Option<seq<Edit>> {
    if fields == [] then Some([])
    else
      var (key, effect) := fields[|fields| - 1];
      var rest := Edits(fields[..|fields| - 1], fieldMap);
      if rest.None? || !("op__" <= key) then rest
      else if !Usable(key, effect, fieldMap) then None
      else Some(rest.value + [Edit(fieldMap[key].value, effect)])
  }

  /** Grants as one flat table; order lists the rules in the stored policy's own order. */
  function Loaded(tools: Rulebook, order: seq<Pair>): map<string, string> {
    if order == [] then map[]
    else
      var (rest, p) := (Loaded(tools, order[..|order| - 1]), order[|order| - 1]);
      rest[Grant(p.tool, p.op) := RuleAt(tools, p.tool, p.op).GetOr("")]
  }

  function Overlaid(grants: map<string, string>, edits: seq<Edit>): map<string, string> {
    if edits == [] then grants
    else
      var (rest, e) := (Overlaid(grants, edits[..|edits| - 1]), edits[|edits| - 1]);
      rest[Grant(e.pair.tool, e.pair.op) := e.effect]
  }

  function WithEffect(grants: map<string, string>, effect: Effect): seq<string> {
    Sorted(set key | key in grants && grants[key] == Text(effect))
  }

  function ByEffect(grants: map<string, string>): Merged {
    Grants(WithEffect(grants, Allow), WithEffect(grants, Review), WithEffect(grants, Deny))
  }

  lemma {:induction false} EditsPrefix(fields: seq<(string, string)>, fieldMap: FieldMap, n: nat)
    requires n <= |fields| && Edits(fields[..n], fieldMap).None?
    ensures Edits(fields, fieldMap).None?
    decreases |fields|
  {
    if n < |fields| {
      var rest := fields[..|fields| - 1];
      assert rest[..n] == fields[..n];
      EditsPrefix(rest, fieldMap, n);
    } else {
      assert fields[..n] == fields;
    }
  }

  method MergeGrants(current: Policy, order: seq<Pair>, fields: seq<(string, string)>, fieldMap: FieldMap)
    returns (r: Merged)
    ensures var edits := Edits(fields, fieldMap);
            r == if edits.None? then Refused
                 else ByEffect(Overlaid(Loaded(current.tools.GetOr(map[]), order), edits.value))
  {
    var tools := current.tools.GetOr(map[]);
    var grants: map<string, string> := map[];
    for i := 0 to |order|
      invariant grants == Loaded(tools, order[..i])
    {
      assert order[..i + 1][..i] == order[..i];
      grants := grants[Grant(order[i].tool, order[i].op) := RuleAt(tools, order[i].tool, order[i].op).GetOr("")];
    }
    assert order[..|order|] == order;
    ghost var loaded := grants;
    for i := 0 to |fields|
      invariant Edits(fields[..i], fieldMap).Some?
      invariant grants == Overlaid(loaded, Edits(fields[..i], fieldMap).value)
    {
      var (key, effect) := fields[i];
      assert fields[..i + 1][..i] == fields[..i];
      if !("op__" <= key) {
        continue;
      }
      if !Usable(key, effect, fieldMap) {
        EditsPrefix(fields, fieldMap, i + 1);
        return Refused;
      }
      var pair := fieldMap[key].value;
      ghost var before := Edits(fields[..i], fieldMap).value;
      assert (before + [Edit(pair, effect)])[..|before|] == before;
      grants := grants[Grant(pair.tool, pair.op) := effect];
    }
    assert fields[..|fields|] == fields;
    return ByEffect(grants);
  }

  // ---- which fields count -------------------------------------------------------------------------

  predicate OpField(key: string) {
    |key| >= 4 && key[0] == 'o' && key[1] == 'p' && key[2] == '_' && key[3] == '_'
  }

  /** A known effect, a second "__" in the key, and one operation the key stands for. */
  ghost predicate FieldUsable(key: string, effect: string, fieldMap: FieldMap) {
    && (effect == "allow" || effect == "review" || effect == "deny")
    && (exists i :: 4 <= i && i + 1 < |key| && key[i] == '_' && key[i + 1] == '_')
    && key in fieldMap && fieldMap[key] != None
  }

  /** A form is refused if and only if some operation field of it is unusable. */
  lemma {:induction false} EditsRefused(fields: seq<(string, string)>, fieldMap: FieldMap)
    ensures Edits(fields, fieldMap).None? <==>
              exists i | 0 <= i < |fields| :: OpField(fields[i].0) && !FieldUsable(fields[i].0, fields[i].1, fieldMap)
  {
    hide FieldUsable, OpField;
    if fields != [] {
      var n := |fields| - 1;
      EditsRefused(fields[..n], fieldMap);
      UsableSo(fields[n].0, fields[n].1, fieldMap);
      hide Usable;
      assert forall i | 0 <= i < n :: fields[..n][i] == fields[i];
    }
  }

  /** Otherwise it makes one edit for each operation field, in order, and no other. */
  lemma {:induction false} EditsListed(fields: seq<(string, string)>, fieldMap: FieldMap) returns (at: seq<nat>)
    requires Edits(fields, fieldMap).Some?
    ensures forall i | 0 <= i < |fields| :: i in at <==> OpField(fields[i].0)
    ensures forall j | 0 <= j < |at| :: at[j] < |fields|
    ensures forall i, j | 0 <= i < j < |at| :: at[i] < at[j]
    ensures var edits := Edits(fields, fieldMap).value;
            && |edits| == |at|
            && forall j | 0 <= j < |at| ::
                 && fields[at[j]].0 in fieldMap && Some(edits[j].pair) == fieldMap[fields[at[j]].0]
                 && edits[j].effect == fields[at[j]].1
  {
    hide OpField;
    at := [];
    if fields != [] {
      var n := |fields| - 1;
      at := EditsListed(fields[..n], fieldMap);
      UsableSo(fields[n].0, fields[n].1, fieldMap);
      assert forall i | 0 <= i < n :: fields[..n][i] == fields[i];
      if OpField(fields[n].0) {
        at := at + [n];
      }
    }
  }

  lemma UsableSo(key: string, effect: string, fieldMap: FieldMap)
    ensures "op__" <= key <==> OpField(key)
    ensures Usable(key, effect, fieldMap) <==> FieldUsable(key, effect, fieldMap)
  {
  }

  /** The editable operations are those catalogued for the given tools. */
  lemma {:induction false} EditableExactly(tools: seq<string>, catalog: map<string, seq<string>>, p: Pair)
    ensures p in Editable(tools, catalog) <==> p.tool in tools && p.tool in catalog && p.op in catalog[p.tool]
  {
    if tools != [] {
      var rest, last := tools[..|tools| - 1], tools[|tools| - 1];
      EditableExactly(rest, catalog, p);
      var ops := if last in catalog then catalog[last] else [];
      assert p in PairsOf(last, ops) <==> p.tool == last && p.op in ops by {
        assert forall i | 0 <= i < |ops| :: PairsOf(last, ops)[i] == Pair(last, ops[i]);
      }
      assert p.tool in tools <==> p.tool in rest || p.tool == last;
    }
  }

  // ---- what an edit means -------------------------------------------------------------------------

  /** The listed pairs are exactly the rules. */
  ghost predicate Lists(order: seq<Pair>, tools: Rulebook) {
    forall p: Pair :: p in order <==> RuleAt(tools, p.tool, p.op).Some?
  }

  /** What a posted form last said about a grant. */
  function LastEdit(edits: seq<Edit>, key: string): Option<string> {
    if edits == [] then None
    else
      var last := edits[|edits| - 1];
      if Grant(last.pair.tool, last.pair.op) == key then Some(last.effect) else LastEdit(edits[..|edits| - 1], key)
  }

  /** The last of the listed pairs that are written as the same grant. */
  function LastListed(order: seq<Pair>, key: string): (pair: Option<Pair>)
    ensures pair.Some? ==> pair.value in order && Grant(pair.value.tool, pair.value.op) == key
    ensures pair.None? ==> forall p | p in order :: Grant(p.tool, p.op) != key
  {
    if order == [] then None
    else
      var last := order[|order| - 1];
      if Grant(last.tool, last.op) == key then Some(last) else LastListed(order[..|order| - 1], key)
  }

  /** The effect a saved form gives a grant: as last edited, else as the last listed pair of that grant had it. */
  function FormRule(tools: Rulebook, order: seq<Pair>, edits: seq<Edit>, key: string): Option<string> {
    if LastEdit(edits, key).Some? then LastEdit(edits, key)
    else
      match LastListed(order, key)
      case None => None
      case Some(p) => RuleAt(tools, p.tool, p.op)
  }

  function Lookup(grants: map<string, string>, key: string): Option<string> {
    if key in grants then Some(grants[key]) else None
  }

  /** A grant of an undotted tool splits back into its two parts. */
  lemma GrantSplits(tool: string, op: string)
    requires '.' !in tool
    ensures Before(Grant(tool, op), '.') == tool && After(Grant(tool, op), '.') == op
  {
    PartitionAt(tool, '.', op);
    assert Grant(tool, op) == tool + ['.'] + op;
  }

  /** A grant of a dotted tool splits within the tool's id. */
  lemma DottedSplits(tool: string, op: string)
    requires '.' in tool
    ensures Before(Grant(tool, op), '.') == Before(tool, '.')
    ensures After(Grant(tool, op), '.') == After(tool, '.') + "." + op
  {
    SplitFirst(tool, '.');
    var head, rest := Before(tool, '.'), After(tool, '.') + "." + op;
    assert Grant(tool, op) == head + ['.'] + rest;
    PartitionAt(head, '.', rest);
  }

  /** Every key is the grant of some undotted tool. */
  predicate AllGrants(grants: map<string, string>) {
    forall key | key in grants :: Reads(key)
  }

  predicate Reads(key: string) {
    '.' !in Before(key, '.') && key == Grant(Before(key, '.'), After(key, '.'))
  }

  lemma GrantReads(tool: string, op: string)
    ensures Reads(Grant(tool, op))
  {
    assert Grant(tool, op)[|tool|] == '.';
    SplitFirst(Grant(tool, op), '.');
  }

  lemma {:induction false} LoadedAt(tools: Rulebook, order: seq<Pair>, key: string)
    requires forall p | p in order :: RuleAt(tools, p.tool, p.op).Some?
    ensures AllGrants(Loaded(tools, order))
    ensures Lookup(Loaded(tools, order), key) == FormRule(tools, order, [], key)
  {
    hide Grant, Reads;
    if order != [] {
      var last := order[|order| - 1];
      LoadedAt(tools, order[..|order| - 1], key);
      GrantReads(last.tool, last.op);
    }
  }

  lemma {:induction false} OverlaidAt(grants: map<string, string>, edits: seq<Edit>, key: string)
    requires AllGrants(grants)
    ensures AllGrants(Overlaid(grants, edits))
    ensures Lookup(Overlaid(grants, edits), key)
         == if LastEdit(edits, key).Some? then LastEdit(edits, key) else Lookup(grants, key)
  {
    hide Grant, Reads;
    if edits != [] {
      var last := edits[|edits| - 1];
      OverlaidAt(grants, edits[..|edits| - 1], key);
      GrantReads(last.pair.tool, last.pair.op);
    }
  }

  lemma TargetsGrant(grants: map<string, string>, effect: Effect, tool: string, op: string)
    requires AllGrants(grants) && '.' !in tool
    ensures Targets(WithEffect(grants, effect), tool, op) <==> Lookup(grants, Grant(tool, op)) == Some(Text(effect))
  {
    GrantSplits(tool, op);
    hide Before, After, Text;
    var specs := WithEffect(grants, effect);
    if Targets(specs, tool, op) {
      var spec :| spec in specs && Before(spec, '.') == tool && After(spec, '.') == op;
      assert Reads(spec);
    }
    if Lookup(grants, Grant(tool, op)) == Some(Text(effect)) {
      assert Grant(tool, op) in specs;
    }
  }

  /** The policy a saved form stores: its rules from the policy the form was merged with, enablement and
      exclusions from the one read just before the write. */
  function Merge(read: Policy, before: Policy, order: seq<Pair>, edits: seq<Edit>): Policy {
    var r := ByEffect(Overlaid(Loaded(read.tools.GetOr(map[]), order), edits));
    Ruled(before, Built(r.allow, r.review, r.deny))
  }

  lemma {:induction false} PlacedUndotted(tools: Rulebook, specs: seq<string>, effect: string)
    requires Undotted(tools)
    ensures Undotted(PlacedAll(tools, specs, effect))
  {
    if specs != [] {
      PlacedUndotted(tools, specs[..|specs| - 1], effect);
      var spec := specs[|specs| - 1];
      assert Before(spec, '.') == spec[..Find(spec, '.')];
    }
  }

  /** Policies built from grants never hold a dotted tool id. */
  lemma BuiltUndotted(allow: seq<string>, review: seq<string>, deny: seq<string>)
    ensures Undotted(Built(allow, review, deny))
  {
    var reviewed := PlacedAll(map[], review, Text(Review));
    PlacedUndotted(map[], review, Text(Review));
    PlacedUndotted(reviewed, allow, Text(Allow));
    PlacedUndotted(PlacedAll(reviewed, allow, Text(Allow)), deny, Text(Deny));
  }

  /** The rules it holds: of an undotted tool what the form says of the grant, of a dotted one none. */
  lemma MergedRules(read: Policy, before: Policy, order: seq<Pair>, edits: seq<Edit>, tool: string, op: string)
    requires Lists(order, read.tools.GetOr(map[]))
    ensures Norm(RuleAt(Merge(read, before, order, edits).tools.value, tool, op))
         == if '.' in tool then Deny else Norm(FormRule(read.tools.GetOr(map[]), order, edits, Grant(tool, op)))
  {
    var tools := read.tools.GetOr(map[]);
    forall p | p in order ensures RuleAt(tools, p.tool, p.op).Some? {
    }
    LoadedAt(tools, order, Grant(tool, op));
    OverlaidAt(Loaded(tools, order), edits, Grant(tool, op));
    var grants := Overlaid(Loaded(tools, order), edits);
    var r := ByEffect(grants);
    BuiltUndotted(r.allow, r.review, r.deny);
    hide Loaded, Overlaid, Built, Targets, LastEdit, LastListed, Grant, Lists;
    if '.' !in tool {
      TargetsGrant(grants, Allow, tool, op);
      TargetsGrant(grants, Review, tool, op);
      TargetsGrant(grants, Deny, tool, op);
      hide WithEffect;
      BuiltRules(r.allow, r.review, r.deny, tool, op);
    }
  }

  /** Enablement or exclusions deny the operation whatever the rules say. */
  predicate Blocked(policy: Policy, tool: string, op: string) {
    (Managed(policy) && tool !in policy.enabled.value) || op in Disabled(policy, tool)
  }

  /** Every decision after a save, for any stored policies, orders and edits. */
  lemma FormDecides(read: Policy, before: Policy, order: seq<Pair>, edits: seq<Edit>, tool: string, op: string)
    requires Lists(order, read.tools.GetOr(map[]))
    ensures Decide(Merge(read, before, order, edits), tool, op)
         == if Blocked(before, tool, op) || '.' in tool then Deny
            else Norm(FormRule(read.tools.GetOr(map[]), order, edits, Grant(tool, op)))
  {
    MergedRules(read, before, order, edits, tool, op);
    DecideRuling(Merge(read, before, order, edits), tool, op);
    hide FormRule, Norm, Lists, Decide, RuleAt, Built, ByEffect;
  }

  /** The pair keeps its place when it is written out as a grant and read back. */
  predicate KeepsPlace(tools: Rulebook, order: seq<Pair>, tool: string, op: string) {
    var rule := RuleAt(tools, tool, op);
    if '.' in tool then Norm(rule) == Deny
    else match LastListed(order, Grant(tool, op))
      case None => true
      case Some(p) => Norm(RuleAt(tools, p.tool, p.op)) == Norm(rule)
  }

  /** A save keeps the decision of an unedited pair exactly when the pair is blocked or keeps its place: it was
      denied, if its tool id is dotted, or else no later listed pair of another effect is written as the same
      grant. That is, as long as the policy read is still the one stored. */
  lemma UneditedKept(current: Policy, order: seq<Pair>, edits: seq<Edit>, tool: string, op: string)
    requires Lists(order, current.tools.GetOr(map[])) && LastEdit(edits, Grant(tool, op)).None?
    ensures Decide(Merge(current, current, order, edits), tool, op) == Decide(current, tool, op)
       <==> Blocked(current, tool, op) || KeepsPlace(current.tools.GetOr(map[]), order, tool, op)
  {
    FormDecides(current, current, order, edits, tool, op);
    DecideRuling(current, tool, op);
    hide Merge, LastEdit, LastListed, Grant, Decide;
    var p := Pair(tool, op);
    assert p in order <==> RuleAt(current.tools.GetOr(map[]), p.tool, p.op).Some?;
  }

  /** Between pairs of undotted tools there is nothing to confuse. */
  lemma UndottedPlace(tools: Rulebook, order: seq<Pair>, tool: string, op: string)
    requires Undotted(tools) && Lists(order, tools)
    ensures KeepsPlace(tools, order, tool, op)
  {
    if '.' !in tool {
      GrantSplits(tool, op);
      match LastListed(order, Grant(tool, op))
      case Some(p) =>
        assert RuleAt(tools, p.tool, p.op).Some?;
        GrantSplits(p.tool, p.op);
      case None =>
    }
  }

  lemma {:induction false} EditedPair(edits: seq<Edit>, tool: string, op: string)
    requires LastEdit(edits, Grant(tool, op)).Some? && '.' !in tool
    requires forall e | e in edits :: '.' !in e.pair.tool
    ensures exists e | e in edits :: e.pair == Pair(tool, op)
  {
    var last := edits[|edits| - 1];
    if Grant(last.pair.tool, last.pair.op) == Grant(tool, op) {
      GrantSplits(tool, op);
      GrantSplits(last.pair.tool, last.pair.op);
      assert last in edits && last.pair == Pair(tool, op);
    } else {
      EditedPair(edits[..|edits| - 1], tool, op);
      var e :| e in edits[..|edits| - 1] && e.pair == Pair(tool, op);
      assert e in edits;
    }
  }

  /** So over stored rules of undotted tools, saving the form leaves every pair it does not edit decided as before,
      and gives each edited one its last submitted effect, under the tool's enablement and exclusions. */
  lemma FormKeepsUnedited(current: Policy, order: seq<Pair>, edits: seq<Edit>, tool: string, op: string)
    requires Undotted(current.tools.GetOr(map[])) && Lists(order, current.tools.GetOr(map[]))
    requires forall e | e in edits :: '.' !in e.pair.tool
    ensures (forall e | e in edits :: e.pair != Pair(tool, op)) ==>
              Decide(Merge(current, current, order, edits), tool, op) == Decide(current, tool, op)
    ensures '.' !in tool && LastEdit(edits, Grant(tool, op)).Some? ==>
              (Decide(Merge(current, current, order, edits), tool, op)
               == if Blocked(current, tool, op) then Deny else Norm(LastEdit(edits, Grant(tool, op))))
  {
    hide Merge, LastEdit, Grant, Decide, Lists, Norm;
    FormDecides(current, current, order, edits, tool, op);
    UndottedPlace(current.tools.GetOr(map[]), order, tool, op);
    if LastEdit(edits, Grant(tool, op)).None? {
      UneditedKept(current, order, edits, tool, op);
    } else if '.' !in tool {
      EditedPair(edits, tool, op);
    } else {
      DecideRuling(current, tool, op);
    }
  }

  /** A dotted tool id does not survive a save: its operations are denied, and what was granted to it passes to
      the tool named by what precedes the first dot, unless that grant is edited or listed again later. */
  lemma DottedRehomed(read: Policy, before: Policy, order: seq<Pair>, edits: seq<Edit>, tool: string, op: string)
    requires Lists(order, read.tools.GetOr(map[])) && '.' in tool
    ensures var (home, rest) := (Before(tool, '.'), After(tool, '.') + "." + op);
            && '.' !in home && Grant(home, rest) == Grant(tool, op)
            && Decide(Merge(read, before, order, edits), tool, op) == Deny
            && (LastListed(order, Grant(tool, op)) == Some(Pair(tool, op)) && LastEdit(edits, Grant(tool, op)).None?
                && !Blocked(before, home, rest) ==>
                  (Decide(Merge(read, before, order, edits), home, rest)
                   == Norm(RuleAt(read.tools.GetOr(map[]), tool, op))))
  {
    DottedSplits(tool, op);
    GrantReads(tool, op);
    hide Merge, Decide, Lists, Before, After;
    FormDecides(read, before, order, edits, tool, op);
    FormDecides(read, before, order, edits, Before(tool, '.'), After(tool, '.') + "." + op);
  }

  // ---- saving the form ----------------------------------------------------------------------------

  datatype Answer = Missing | Unusable | Stored

  /** The web handler: the policy is read, the posted form merged with it, and the result written. The page it
      was edited on plays no part, and whatever another process commits meanwhile is overwritten. */
  method SavePolicy(store: Store, name: string, catalog: map<string, seq<string>>, order: seq<Pair>,
                    fields: seq<(string, string)>, first: Option<Policy>, second: Option<Policy>, now: Time)
    returns (answer: Answer)
    requires Lists(order, PolicyFor(store.Tables(), NameIndex(store.callers, name)).tools.GetOr(map[]))
    modifies store
    ensures var db := old(store.Tables()); var id := NameIndex(db.callers, name); var read := PolicyFor(db, id);
            var edits := Edits(fields, MappedAll(Editable(Sorted(EnabledTools(read)), catalog)));
            var between := Interfered(db, id, first, now);
            && answer == (if id == |db.callers| then Missing else if edits.None? then Unusable else Stored)
            && store.Tables()
            == if answer.Stored? then WritePolicy(Interfered(between, id, second, now), id,
                                                  Merge(read, PolicyFor(between, id), order, edits.value), now)
               else db
  {
    hide Built, Lists;
    var id := NameIndex(store.callers, name);
    if id == |store.callers| {
      return Missing;
    }
    var read := PolicyFor(store.Tables(), id);
    var fieldMap := OperationFields(read, catalog);
    var merged := MergeGrants(read, order, fields, fieldMap);
    if merged.Refused? {
      return Unusable;
    }
    if first.Some? {
      store.SetPolicy(id, first.value, now);
    }
    var _ := SetPolicy(store, name, merged.allow, merged.review, merged.deny, second, now);
    return Stored;
  }

  /** The policy stored when the form is written, after what other processes committed. */
  function Latest(read: Policy, first: Option<Policy>, second: Option<Policy>): Policy {
    if second.Some? then second.value else if first.Some? then first.value else read
  }

  /** What another process commits between the handler's read and its write leaves no trace in the rules: each
      unblocked pair of an undotted tool is decided by the form over the policy read. */
  lemma WrittenMeanwhileLost(db: Db, caller: nat, first: Option<Policy>, second: Option<Policy>, order: seq<Pair>,
                             edits: seq<Edit>, now: Time, tool: string, op: string)
    requires Lists(order, PolicyFor(db, caller).tools.GetOr(map[])) && '.' !in tool
    ensures var between := Interfered(db, caller, first, now);
            var after := WritePolicy(Interfered(between, caller, second, now), caller,
                                     Merge(PolicyFor(db, caller), PolicyFor(between, caller), order, edits), now);
            Decide(PolicyFor(after, caller), tool, op)
            == if Blocked(Latest(PolicyFor(db, caller), first, None), tool, op) then Deny
               else Norm(FormRule(PolicyFor(db, caller).tools.GetOr(map[]), order, edits, Grant(tool, op)))
  {
    var between := Interfered(db, caller, first, now);
    FormDecides(PolicyFor(db, caller), PolicyFor(between, caller), order, edits, tool, op);
    hide Merge, Decide, FormRule, Lists;
  }

  /** The decision of an undotted pair, as it is stored when the form is written, survives the write exactly when both
      sides come to the same: a pair blocked by the enablement and exclusions read before the write must be blocked
      or denied in the latest policy, one blocked only there must be denied by the form, and any other must have the
      same rule in both. */
  lemma MeanwhileKept(read: Policy, first: Option<Policy>, second: Option<Policy>, order: seq<Pair>, edits: seq<Edit>,
                      tool: string, op: string)
    requires Lists(order, read.tools.GetOr(map[])) && '.' !in tool
    ensures var (before, latest) := (Latest(read, first, None), Latest(read, first, second));
            var stored := Norm(FormRule(read.tools.GetOr(map[]), order, edits, Grant(tool, op)));
            var rule := Norm(RuleAt(latest.tools.GetOr(map[]), tool, op));
            Decide(Merge(read, before, order, edits), tool, op) == Decide(latest, tool, op)
            <==> (if Blocked(before, tool, op) then Blocked(latest, tool, op) || rule == Deny
                  else if Blocked(latest, tool, op) then stored == Deny
                  else rule == stored)
  {
    FormDecides(read, Latest(read, first, None), order, edits, tool, op);
    DecideRuling(Latest(read, first, second), tool, op);
    hide Merge, FormRule, Lists, Decide;
  }

  // ---- choosing tools -----------------------------------------------------------------------------

  function Deduped(s: seq<string>): (r: seq<string>)
    ensures forall x :: x in r <==> x in s
  {
    if s == [] then []
    else
      var (rest, last) := (Deduped(s[..|s| - 1]), s[|s| - 1]);
      if last in rest then rest else rest + [last]
  }

  function Outside(s: seq<string>, available: set<string>): (r: seq<string>)
    ensures forall x :: x in r <==> x in s && x !in available
  {
    if s == [] then []
    else (if s[0] in available then [] else [s[0]]) + Outside(s[1..], available)
  }

  /** merge_enabled: the selected tools, and every prior one that the form did not show. */
  function MergedEnabled(current: Policy, available: set<string>, selected: seq<string>): seq<string> {
    var prior := Deduped(current.enabled.GetOr([]) + Sorted(current.tools.GetOr(map[]).Keys));
    Deduped(Outside(prior, available) + selected)
  }

  /** set_enabled_tools: the other tools lose their rules. The rules come from one reading of the stored policy, whether
      there are exclusions from a second, and what they are from a third; None when those are gone by then. */
  function Chosen(first: Policy, second: Policy, third: Policy, enabled: seq<string>): Option<Policy> {
    var rules := first.tools.GetOr(map[]);
    var listed := Deduped(enabled);
    var tools := map tool | tool in rules && tool in listed :: rules[tool];
    if second.disabled.None? then Some(Policy(Some(tools), if listed != [] then Some(listed) else None, None))
    else if third.disabled.None? then None
    else Some(Policy(Some(tools), Some(listed), third.disabled))
  }

  /** With one policy stored throughout. */
  function WithEnabled(current: Policy, enabled: seq<string>): Policy {
    Chosen(current, current, current, enabled).value
  }

  /** Other processes may commit after each of the readings; the result is written over whatever is stored then. */
  method SetEnabledTools(store: Store, name: string, enabled: seq<string>, first: Option<Policy>,
                         second: Option<Policy>, third: Option<Policy>, now: Time)
    returns (answer: Answer)
    modifies store
    ensures var db := old(store.Tables()); var id := NameIndex(db.callers, name);
            var mid := Interfered(db, id, first, now);
            var late := Interfered(mid, id, second, now);
            var chosen := Chosen(PolicyFor(db, id), PolicyFor(mid, id), PolicyFor(late, id), enabled);
            && answer == (if id == |db.callers| then Missing else if chosen.None? then Unusable else Stored)
            && store.Tables()
            == match answer
               case Missing => db
               case Unusable => late
               case Stored => WritePolicy(Interfered(late, id, third, now), id, chosen.value, now)
  {
    hide WritePolicy, Deduped;
    var id := NameIndex(store.callers, name);
    if id == |store.callers| {
      return Missing;
    }
    var rules := PolicyFor(store.Tables(), id);
    if first.Some? {
      store.SetPolicy(id, first.value, now);
    }
    var narrowed := PolicyFor(store.Tables(), id);
    if second.Some? {
      store.SetPolicy(id, second.value, now);
    }
    var chosen := Chosen(rules, narrowed, PolicyFor(store.Tables(), id), enabled);
    if chosen.None? {
      return Unusable;
    }
    if third.Some? {
      store.SetPolicy(id, third.value, now);
    }
    store.SetPolicy(id, chosen.value, now);
    return Stored;
  }

  /** Whatever was committed between the readings, a save lets the chosen tools follow the rules of the first, under
      the exclusions of the third if the second saw any, and denies every other. */
  lemma ChosenDecides(first: Policy, second: Policy, third: Policy, enabled: seq<string>, tool: string, op: string)
    requires Chosen(first, second, third, enabled).Some?
    ensures Decide(Chosen(first, second, third, enabled).value, tool, op)
         == if tool !in enabled || (second.disabled.Some? && op in Disabled(third, tool)) then Deny
            else Norm(RuleAt(first.tools.GetOr(map[]), tool, op))
  {
  }

  /** The tools enabled afterwards are the chosen ones. */
  lemma ChosenEnabled(first: Policy, second: Policy, third: Policy, enabled: seq<string>, tool: string)
    requires Chosen(first, second, third, enabled).Some?
    ensures tool in EnabledTools(Chosen(first, second, third, enabled).value) <==> tool in enabled
  {
    EnabledExactly(Chosen(first, second, third, enabled).value, tool);
  }

  /** Choosing tools adds no tool id to the rules. */
  lemma ChosenUndotted(current: Policy, enabled: seq<string>)
    requires Undotted(current.tools.GetOr(map[]))
    ensures Undotted(WithEnabled(current, enabled).tools.value)
  {
  }

  /** After the tool form is saved, a shown but unselected tool is denied; every other tool follows its rules. */
  lemma ChosenTools(current: Policy, available: set<string>, selected: seq<string>, tool: string, op: string)
    ensures Decide(WithEnabled(current, MergedEnabled(current, available, selected)), tool, op)
         == if tool in available && tool !in selected then Deny else Ruling(current, tool, op)
  {
  }

  /** So a tool the form could not show keeps its decisions, except in one case: a managed policy in which it
      was disabled but kept rules. The save enables it again. */
  lemma HiddenToolKept(current: Policy, available: set<string>, selected: seq<string>, tool: string, op: string)
    requires tool !in available && tool !in selected
    ensures Decide(WithEnabled(current, MergedEnabled(current, available, selected)), tool, op)
         == Decide(current, tool, op)
       <==> !(Managed(current) && tool !in current.enabled.value && Ruling(current, tool, op) != Deny)
  {
  }

  /** The settings editor makes such policies: it keeps the rules of a tool it disables. Once that tool has left
      the catalog, saving the tool form turns its denials back into the rules submitted with the disabling. */
  lemma HiddenToolReenabled(policy: Policy, catalog: CallerSettings.Catalog, draft: CallerSettings.Draft,
                            available: set<string>, selected: seq<string>, tool: string, op: string)
    requires CallerSettings.DraftOk(catalog, draft) && tool in catalog && op in CallerSettings.Names(catalog[tool])
    requires tool !in draft.enabled.value && op !in draft.disabled.value[tool].value
    requires tool !in available && tool !in selected
    ensures var edited := CallerSettings.Edited(policy, catalog, draft);
            && CallerSettings.ToolOk(catalog, draft, tool)
            && Decide(edited, tool, op) == Deny
            && Decide(WithEnabled(edited, MergedEnabled(edited, available, selected)), tool, op)
            == Norm(Some(draft.tools.value[tool].value[op]))
  {
    assert CallerSettings.ToolOk(catalog, draft, tool);
    var edited := CallerSettings.Edited(policy, catalog, draft);
    ChosenTools(edited, available, selected, tool, op);
    hide WithEnabled, MergedEnabled, CallerSettings.EditedExclusions;
    assert op !in Disabled(edited, tool) by {
      assert CallerSettings.EditedExclusions(policy, catalog, draft, catalog.Keys)[tool]
          == CallerSettings.Exclusions(policy, catalog, draft, tool);
    }
  }
}
