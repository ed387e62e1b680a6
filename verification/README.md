# Toolstack control plane: verified model

A Dafny model of the parts of the Toolstack control plane whose correctness does not show in any single
function: the broker's request, approval and execution protocol, and the smaller mechanisms around it.
Verify everything with `dafny verify dfyconfig.toml`.

## What is modelled

**The broker protocol.** `BrokerDb` holds the rows of the store and every committed transaction as a function on
them; class `BrokerStore.Store` carries the same transactions out statement by statement and is proved to commit
exactly that state; `BrokerColumns` says of each when it takes effect and what every row of the tables holds
afterwards, without the functions it is built from. `Protocol` is the concurrent system: each handler is a worker whose program counter names its
next transaction or outside call, and one step runs one of them, so steps of submitters, pollers, sweeps, admin
tools and crashes interleave freely. Catalog lookups, the surface's answers, the clock and crashes are parameters
of the steps; no assumption is made about the clock. `BrokerInvariant` says what every transaction keeps,
`ProtocolInvariant` adds the ownership discipline under which the unconditional `update_request` is safe (only the
creator advances a received row, only the claimer finishes an executing one, a crash drops ownership and nothing
hands it over), and `ProtocolSafety`, `ProtocolOutcomes`, `Orphans` and `Retention` draw the conclusions over whole runs. `Lifecycle` and
`StatusPoll` run one handler to its end on the store, prove that it takes exactly the steps of `Protocol`, and
state what it ends with. `BrokerOperations` holds the loops: the deadline sweep, cancellation, revocation, rotation.

**Around it.** `CanonicalJson` (the text that digests cover and the card's budget counts) and `JsonReader` (what a
reader of RFC 8259 makes of it), `ApprovalSummary` (what the approval card can reveal) and `ApprovalCard` (that it shows
the arguments it stands for, under pointers of RFC 6901), `CallerSettings` and `PolicyForms` (policy edits that must preserve authority the editor
cannot see, over `PolicyRules`), `Hydration` (path templates and percent-encoding, sections 2.1, 2.3, 3.3 and 3.4 of
RFC 3986), `Framing` (stream readers and chunking), `Sessions` (revocation with a capped table), `AuditLog` (rotating
files), `Toolyard` (start and stop against a saved record), `SpsRecovery` (re-registration after a secret provider
restart) and `CatalogObservation` (the double health read).
`PythonText` and `Wrappers` hold the few library operations they share.

**Abstractions.** SHA-256 and HMAC are injective and unforgeable: a digest is the value it covers. The broker's
tables hold arguments as their canonical JSON text, which `CanonicalJson.CanonicalText` shows to stand for the value
itself. A SQLite transaction, a single committed UPDATE, an atomic file replacement and a rename are one step each.
Keys, ids and nonces that the source draws at random never repeat. Nondeterminism in method bodies (`*`) stands for
the environment: a crash, a save that fails, a process that does not die.

## Where the code does not do what one would expect

Each of these is stated and proved below, next to the condition under which the expected property does hold.

- An approval row can stay awaiting for ever beside a request that reconciliation ended (`Orphans.OrphanForever`). It
  does exactly when a submission crashed between `create_approval` and `update_request("pending_approval")` and
  `reconcile_offline` ran later (`Orphans.OrphanExactly`); short of that crash, and of a submission still between the
  two, every awaiting approval has its request parked (`Orphans.AwaitingParked`).
- The approval card reveals whether a field beneath a sensitive name is present. It tells the arguments apart from
  others that differ only beneath such names exactly when some configured pointer goes beneath a sensitive name those
  arguments hold and the entry for one of the two answers still fits on the card (`ApprovalSummary.Interference`). It
  reveals nothing when no pointer goes beneath such a name (`ApprovalSummary.NonInterference`).
- On the card a field named "[OMITTED]" of an object with more than sixteen fields gives its place to the note that
  counts the others, and fields with names longer than 64 characters share one masked entry
  (`ApprovalCard.MaskDepicts` says which field each shown one stands for).
- Two variables side by side in a path template, or a literal dot before one, can render the segment "..": each value
  "." is accepted alone (`Hydration.TwoVariablesClimb`). `Hydration.DotSegments` says exactly when a rendered path has a
  segment "." or ".."; no single variable makes "..".
- Saving the tool form re-enables a tool the form could not show, if a managed policy had it disabled but kept its
  rules (`PolicyForms.HiddenToolKept`); the settings editor makes such policies (`PolicyForms.HiddenToolReenabled`).
- Saving the policy form moves the grants of a dotted tool id to the tool named before its first dot
  (`PolicyForms.DottedRehomed`); an unedited pair keeps its decision exactly as `PolicyForms.UneditedKept` says.
  Policies written by the code itself never hold such an id (`PolicyForms.BuiltUndotted`,
  `CallerSettings.EditedUndotted`).
- The policy form compares nothing when it saves, so rules committed between its read and its write are lost
  (`PolicyForms.WrittenMeanwhileLost`); `PolicyForms.MeanwhileKept` says exactly which decisions survive.
- A revoked session can verify again for a reader that brings the key it was signed under: after a revocation at
  capacity (`Sessions.StalePasses`), or when another revocation drops the expired entry between the reader's look at
  the clock and its look at the table (`Sessions.StraddlingPasses`). `Sessions.StaleReader` says exactly when, for
  every run.
- A nested reload can make the broker certify a catalog it does not have. It does so exactly by installing another
  catalog while an id is answered, or an outer reload is about to announce one, for the old
  (`CatalogObservation.HarmExactly`), and from every state so reached, and every state in which an outer reload has
  its fingerprint and not yet stored it, a wrong verdict can follow (`CatalogObservation.HarmedMisleads`,
  `CatalogObservation.StoringMisleads`). Verdicts are wrong in no other way (`CatalogObservation.VerifiedExact`).
- A provider call that its caller gave up on can still take effect after a later one. Under an acknowledged boot a live
  tool is registered under its secret exactly when no such call reached it since its last effective one, or the last
  that did was a registration under that secret (`SpsRecovery.AcknowledgedRegistered`, `SpsRecovery.DelayedCallBreaks`);
  `SpsRecovery.DelayedCallReachable` is a run in which a live tool loses its registration.
- A torn audit line makes one line with the event that follows it in its file (`AuditLog.ReadsGrouped`,
  `AuditLog.TornCosts`).

## Model

| member | source | states |
|---|---|---|
| `BrokerStore.Store.AddCaller` | broker/store.py:183-188 | a name is registered once; a duplicate changes nothing |
| `BrokerStore.Store.AddToken` | broker/store.py:197-202 | a token hash is stored once, live, for an existing caller; otherwise nothing changes |
| `BrokerStore.Store.RevokeCaller` | broker/store.py:190-195 | stamps every unrevoked caller of that name and no other column of any table |
| `BrokerStore.Store.RevokeTokens` | broker/store.py:204-221 | stamps exactly the live tokens among the given hashes |
| `BrokerStore.Store.SetPolicy` | broker/store.py:238-253 | stores the policy and, in the same commit, cancels exactly the caller's pending pairs |
| `BrokerStore.Store.CompareAndSetPolicy` | broker/store.py:255-278 | commits only for an unrevoked caller whose stored policy still equals the one compared; otherwise nothing changes |
| `BrokerStore.Store.ReserveAction` | broker/store.py:368-407 | a new row is bound to live authority, policy and digests; a used key answers with its first request and whether the payload differs |
| `BrokerStore.Store.ClaimReceived` | broker/store.py:409-430 | executing exactly under live authority, the loaded generation, the intact binding and an unchanged allow policy; any other received row is denied |
| `BrokerStore.Store.ClaimApproval` | broker/store.py:432-472 | executing and approved together, before the deadline and under unchanged review authority; otherwise both rows end, expired or invalidated |
| `BrokerStore.Store.FinishPending` | broker/store.py:474-506 | both rows end together or not at all, and the deadline and withdrawn authority override the verdict brought |
| `BrokerStore.Store.UpdateRequest` | broker/store.py:308-323 | the unconditional update, which empties the payload of a terminal row |
| `BrokerStore.Store.CreateApproval` | broker/store.py:607-614 | appends one awaiting approval of an existing request |
| `BrokerStore.Store.PrunePayloads` | broker/store.py:516-522 | strips terminal rows older than seven days, once each, and counts them |
| `BrokerStore.Store.ReconcileOffline` | broker/store.py:508-514 | every received or executing row becomes unknown, without payload |
| `BrokerStore.Store.SanitizeRestored` | broker/store.py:581-598 | a restored copy holds no pending work, no live token and only empty policies |
| `BrokerColumns.AddsCaller` | broker/store.py:183-188 | a name is taken once, also by a revoked caller; a new caller is unrevoked, at the end of the table |
| `BrokerColumns.AddsToken` | broker/store.py:197-202 | a hash is stored exactly when it is new and its caller exists, and is live then |
| `BrokerColumns.RevokesByName` | broker/store.py:190-195 | exactly the callers of that name are revoked, and one already revoked keeps its stamp |
| `BrokerColumns.RevokesTokens` | broker/store.py:204-221 | exactly the given tokens are revoked, and one already revoked keeps its stamp |
| `BrokerColumns.PolicyWriteSo` | broker/store.py:242-253 | one commit stores the policy, denies each pending request of that caller as invalidated and cancels its awaiting approval; every other row and policy stays |
| `BrokerColumns.ComparedWriteExactly` | broker/store.py:255-278 | the compared write commits exactly for an unrevoked caller whose stored policy is still the one compared |
| `BrokerColumns.FreshReservation` | broker/store.py:368-407 | under no key or a fresh one: exactly which refusal, or else the one row appended, column by column |
| `BrokerColumns.UsedReservation` | broker/store.py:386-391 | under a used key nothing is written, and it is answered exactly while the caller may act and the policy allows or reviews the first request |
| `BrokerColumns.DirectClaimExactly` | broker/store.py:409-430 | a received row starts executing exactly for the caller that reserved it under unchanged authority that allows it, and is denied otherwise |
| `BrokerColumns.ReviewedClaimExactly` | broker/store.py:432-472 | a pending row starts executing exactly before the deadline and under unchanged authority that reviews it, whether or not its caller presents itself; both rows in each case |
| `BrokerColumns.TamperedDenied` | broker/store.py:341-352 | in any tables, a row whose digest no longer covers its own columns and stored action and arguments is claimed by neither path and ends |
| `BrokerColumns.FinishesExactly` | broker/store.py:474-506 | what ends a pending pair: the deadline, else withdrawn authority, else the verdict brought; and that a sweep ends only what is due |
| `BrokerColumns.UpdatesExactly` | broker/store.py:308-323 | the update keeps an error or result it is not given, and empties the payload of a row it ends |
| `BrokerColumns.CreatesApproval` | broker/store.py:607-614 | exactly a request that exists gets one more approval, awaiting and unanswered |
| `BrokerColumns.PrunesExactly` | broker/store.py:516-522 | a row is stripped exactly when it ended more than seven days ago and was not stripped before |
| `BrokerColumns.ReconcilesExactly` | broker/store.py:508-514 | exactly the received and executing rows end, as unknown |
| `BrokerColumns.RestoresExactly` | broker/store.py:581-598 | every row, token and policy of a restored copy |
| `PolicyRules.DecidesSo` | broker/policy.py:17-28 | default deny: exactly a rule in force that says "allow" or "review" gives anything |
| `PolicyRules.EnabledExactly` | broker/operations.py:39-46 | a tool is enabled exactly if it is listed, or carries rules while enablement is not managed |
| `BrokerInvariant.WritePolicyKeeps` | broker/store.py:242-253 | a policy write keeps the table invariant and disturbs no received or executing row |
| `BrokerInvariant.ReserveKeeps` | broker/store.py:368-401 | reserving keeps the invariant, including one request per caller and key |
| `BrokerInvariant.ClaimReceivedKeeps` | broker/store.py:409-430 | a direct claim keeps the invariant and moves no other received or executing row |
| `BrokerInvariant.ClaimApprovalKeeps` | broker/store.py:432-472 | a reviewed claim keeps request and approval coupled |
| `BrokerInvariant.FinishPendingKeeps` | broker/store.py:474-506 | ending a pending pair keeps both rows coupled and drops the payload |
| `BrokerInvariant.UpdateRequestKeeps` | broker/store.py:308-323 | under which conditions the unconditional update keeps the invariant: the conditions ownership provides |
| `BrokerInvariant.CreateApprovalKeeps` | broker/store.py:607-614 | a first approval with the bound digest keeps the invariant |
| `BrokerInvariant.PruneKeeps` | broker/store.py:516-522 | pruning keeps the invariant and lets a completion only become an expired result |
| `BrokerInvariant.ReconcileKeeps` | broker/store.py:508-514 | offline reconciliation keeps the invariant and only descends statuses |
| `BrokerInvariant.SanitizeKeeps` | broker/store.py:581-598 | sanitizing keeps the invariant and leaves no request that could still be claimed |
| `ProtocolInvariant.StepKeeps` | broker/request_lifecycle.py:71-343 | every step of every handler, tool or crash keeps ownership exclusive, histories at most once, and the tables evolving one way |
| `ProtocolInvariant.StartOk` | broker/store.py:112-166 | the empty store satisfies the invariant |
| `ProtocolSafety.RunInv` | broker/request_lifecycle.py:71-343 | the invariant holds in every state of every run |
| `ProtocolSafety.RunEvolves` | broker/store.py:308-323 | irreversibility: over any run nothing is deleted or rebound, statuses only descend, revocations stay |
| `ProtocolSafety.FewChanges` | broker/request_lifecycle.py:97-216 | a request changes status at most four times ever |
| `ProtocolSafety.OnlyOwnerMoves` | broker/request_lifecycle.py:93-133 | a received or executing row is changed only by the worker that owns it, or by offline reconciliation with no worker left |
| `ProtocolSafety.DispatchedAtMostOnce` | broker/store.py:368-472 | each request is claimed and dispatched at most once, after its claim and exactly as reserved, and each caller's key is dispatched at most once |
| `ProtocolSafety.OnlyClaimsStart` | broker/store.py:409-472 | no step but the two claims starts an execution |
| `ProtocolSafety.AuthorityAtCommit` | broker/store.py:331-352 | every entry into executing happens under live authority, the policy bound at reservation, the loaded generation and, if reviewed, an approval heard for that request's own reference; the reserved action is handed over |
| `ProtocolSafety.RevokedCallerNeverExecutes` | broker/operations.py:126-133 | after a caller's revocation commits, none of its requests ever starts executing, also one caught before it was parked |
| `ProtocolSafety.RevokedTokenNeverClaims` | broker/operations.py:181-199 | after a token's revocation commits, no claim that presents it succeeds |
| `ProtocolSafety.RestoredAuthority` | broker/store.py:581-598 | after a restore no request of the snapshot is ever claimed, and nothing is claimed for a caller before an operator step gave it a live token and another committed a policy for it other than the empty one |
| `ProtocolSafety.TerminalStays` | broker/store.py:308-323 | a terminal request stays terminal over any run |
| `ProtocolSafety.CoupledRows` | broker/store.py:432-522 | pending means exactly one approval, awaiting, with the same digest and the payload kept; answers and statuses agree; terminal rows keep no payload |
| `ProtocolSafety.DeadlineWins` | broker/request_lifecycle.py:283-300 | no step records an approval or a rejection at or past the deadline, by the reading it records |
| `ProtocolOutcomes.ClaimsExactly` | broker/store.py:409-472 | a step starts an execution exactly if it is one of the two claims under the authority each asks for; neither claims without it nor refuses with it |
| `ProtocolOutcomes.HeedsExactly` | broker/request_lifecycle.py:290-343 | what a poll does about the surface's answer once it looked again, and that it does nothing about a pair that is no longer pending |
| `ProtocolOutcomes.PolicyWriteEndsPending` | broker/store.py:242-253 | over every run, what waited when a policy of its caller was committed stays denied, its approval cancelled, and never executes, also when the old policy is stored again |
| `ProtocolOutcomes.EndedRowKept` | broker/store.py:308-323 | the row of a request that has ended is never written again, except by pruning |
| `ProtocolOutcomes.DispatchedFate` | broker/request_lifecycle.py:168-216 | over every run, the row of a dispatched request says what became of it: completed with the result returned, failed exactly if the connection was refused, unknown exactly if the reply was unclear or the broker was cut off; only one reply is ever recorded |
| `ProtocolOutcomes.OperatesAs` | broker/store.py:183-278 | each operator step of the machine commits the transaction of its name |
| `ProtocolOutcomes.OperatesAnytime` | broker/store.py:508-515 | operator transactions can come at any time, with requests in flight, and touch no handler; offline reconciliation alone needs none in flight |
| `Lifecycle.Execute` | broker/request_lifecycle.py:168-216 | only an executing row is dispatched, once, and its outcome recorded; the steps are those of the protocol |
| `Lifecycle.Reject` | broker/request_lifecycle.py:97-119 | a refused row is ended by the one update its creator owns |
| `Lifecycle.OpenApproval` | broker/request_lifecycle.py:136-165 | surface first, then the approval row with the bound digest, then pending; a failing surface fails the request |
| `Lifecycle.ClaimDirectly` | broker/request_lifecycle.py:127-133 | the catalog is asked again before the claim, and only a successful claim executes |
| `Lifecycle.Proceed` | broker/request_lifecycle.py:97-133 | the creator's way from received, by policy effect, in exactly the protocol's steps |
| `Lifecycle.SubmitAction` | broker/request_lifecycle.py:79-133 | a submission from its reservation on: retries and conflicts never advance a row, only the creator goes on |
| `Lifecycle.SubmitRequest` | broker/request_lifecycle.py:62-93 | the key is checked first, then overdue approvals are swept, then the catalog is asked, then a malformed action refused, and only then a row reserved; each refusal leaves the tables as the sweep left them |
| `Lifecycle.SubmissionEnds` | broker/request_lifecycle.py:93-165 | what each policy effect ends with: the row, with the status, error and result of each tool reply, the one new approval, and the one dispatch exactly as reserved; nothing else changes |
| `StatusPoll.ClosePending` | broker/request_lifecycle.py:232-245 | a closing poll ends the pair by the reading it took |
| `StatusPoll.Grant` | broker/request_lifecycle.py:308-322 | an approved poll claims by the freshly looked-up generation and dispatches the stored arguments |
| `StatusPoll.Heed` | broker/request_lifecycle.py:290-343 | the clock, the request and then its approval are read again after the surface answered, before anything is decided |
| `StatusPoll.ResolveRequest` | broker/request_lifecycle.py:262-343 | a whole poll, in exactly the protocol's steps |
| `StatusPoll.PollEnds` | broker/request_lifecycle.py:285-343 | how both rows end, column by column, for every report, deadline, authority and tool reply, and that exactly a granted request is dispatched, once, as reserved |
| `BrokerColumns.PendingWaits` | broker/store.py:616-619 | in sound tables every pending request has the shape PollEnds asks for |
| `BrokerOperations.SweepExpired` | broker/request_lifecycle.py:248-259 | ends exactly the due pairs, at the sweep's reading, and returns their number |
| `BrokerOperations.SweepSteps` | broker/request_lifecycle.py:254-258 | the transactions of a sweep are operator steps of the protocol, whatever its workers are doing |
| `BrokerOperations.SweptClean` | broker/request_lifecycle.py:232-259 | afterwards no parked request has a deadline at or before the reading, each ended one lapsed, no other changed |
| `BrokerOperations.CancelPendingApprovals` | broker/operations.py:99-123 | ends exactly the caller's parked pairs and returns their number |
| `BrokerOperations.NothingParked` | broker/operations.py:99-123 | afterwards nothing of that caller is parked and no other caller's request changed |
| `BrokerOperations.RevokeCaller` | broker/operations.py:126-133 | the caller is revoked and its parked pairs ended; an unknown name changes nothing |
| `BrokerOperations.RevokeToken` | broker/operations.py:181-199 | the matching tokens are revoked and the parked pairs of exactly the callers left tokenless end; a blank or malformed prefix revokes nothing |
| `BrokerOperations.PrefixExactly` | broker/store.py:736-765 | a prefix is 12 to 64 lower-case hexadecimal digits and matches the hashes that begin with it; whose owners count as tokenless |
| `BrokerOperations.CancelTokenless` | broker/operations.py:193-196 | of the matched callers, only those without a live token lose their parked pairs |
| `BrokerOperations.RotateToken` | broker/operations.py:165-178 | the new token is the caller's only live one, and nothing parked is disturbed |
| `Retention.KeyAnswers` | broker/store.py:386-391 | a used key changes nothing and answers its request, in conflict exactly when the payload differs, whatever the generation |
| `Retention.KeyAnswersForever` | broker/store.py:368-401 | it keeps answering so over any run of reloads, reconciles and prunes |
| `Retention.PruneInvisible` | broker/store.py:508-522 | pruning never changes what a reservation answers |
| `Retention.PruneSparesActive` | broker/store.py:516-522 | pruning leaves active rows and bound columns alone and never shows an expired result again |
| `Retention.PruneIdempotent` | broker/store.py:516-522 | pruning twice at one reading is pruning once |
| `Orphans.OrphanExactly` | broker/request_lifecycle.py:161-162 | from an empty store, an approval is awaiting beside a reconciled request exactly when a crash killed the submission that was about to park it and a reconciliation came later |
| `Orphans.AwaitingParked` | broker/request_lifecycle.py:136-165 | from an empty store, an awaiting approval has its request pending exactly when no submission is about to park it and none was killed before it did |
| `Orphans.OrphanForever` | broker/store.py:508-514 | an approval awaiting beside a reconciled request stays so in every continuation |
| `Orphans.OrphanReachable` | broker/request_lifecycle.py:161-162 | a concrete run to such an approval |
| `CallerSettings.EditPolicy` | admin/caller_settings.py:36-60 | the tool-by-tool edit computes the edited policy, or refuses without writing |
| `CallerSettings.Apply` | admin/caller_settings.py:32-65 | revision, shape and scope are checked, then the edit commits over the policy it was computed from |
| `CallerSettings.DraftExactly` | admin/caller_settings.py:38-57 | exactly which drafts are accepted, and which are answered as changed elsewhere |
| `CallerSettings.AppliesExactly` | admin/caller_settings.py:32-65 | an edit is saved exactly for an unrevoked caller over the snapshot the editor was shown; anything else writes nothing |
| `CallerSettings.SeenAsSubmitted` | admin/caller_settings.py:51-60 | every catalogued operation is decided exactly as submitted |
| `CallerSettings.UnseenToolKept` | admin/caller_settings.py:44-50 | an uncatalogued tool is decided as before, for legacy and managed policies alike |
| `CallerSettings.UnseenOperationKept` | admin/caller_settings.py:58-60 | an unlisted operation keeps its ruling, and its decision when the tool's enablement did not change |
| `CallerSettings.EditedUndotted` | admin/caller_settings.py:47-60 | an edit over an undotted catalog adds no dotted tool id |
| `CallerSettings.CommitKeepsUnseen` | broker/store.py:255-278 | whatever was written since the snapshot, the commit leaves unseen authority as it is stored at that moment |
| `PolicyForms.BuildPolicy` | broker/operations.py:24-36 | three passes place each grant at its first dot |
| `PolicyForms.BuiltRules` | broker/operations.py:28-36 | a grant in several lists takes deny over allow over review |
| `PolicyForms.BuiltUndotted` | broker/operations.py:31-36 | a built policy holds no dotted tool id |
| `PolicyForms.SetPolicy` | broker/operations.py:136-145 | rules are replaced, enablement and exclusions kept as read in the transaction before, whatever was committed in between |
| `PolicyForms.OperationFields` | admin/policy_edits.py:4-18 | the field map of the operations editable now |
| `PolicyForms.FieldsUnambiguous` | admin/policy_edits.py:14-17 | a field names an operation exactly when no other editable one shares its key |
| `PolicyForms.EditableExactly` | admin/policy_edits.py:9-12 | the editable operations are those catalogued for the enabled tools |
| `PolicyForms.EditsRefused` | admin/policy_edits.py:37-46 | a form is refused exactly if some operation field has an unknown effect or names no single editable operation |
| `PolicyForms.EditsListed` | admin/policy_edits.py:37-48 | otherwise it makes one edit for each operation field, in order |
| `PolicyForms.MergeGrants` | admin/policy_edits.py:32-51 | stored rules overlaid by the posted edits, or a refusal when any field is unusable |
| `PolicyForms.MergedRules` | admin/policy_edits.py:33-51 | after merging and building, an undotted tool has for each operation the last edit of its grant, else the rule of the last stored pair written as that grant; a dotted one has none |
| `PolicyForms.FormDecides` | admin/server.py:526-531 | every decision after a save, for any policy read by the form and any other read just before the write |
| `PolicyForms.UneditedKept` | admin/policy_edits.py:32-51 | an unedited pair keeps its decision exactly when it is blocked, or dotted and denied, or no later stored pair of another effect is written as the same grant |
| `PolicyForms.FormKeepsUnedited` | admin/policy_edits.py:32-51 | over stored undotted tools, saving the form keeps the decision of every unedited pair and gives each edited one its last submitted effect |
| `PolicyForms.DottedRehomed` | broker/operations.py:34-35 | after a save a dotted tool id is denied, and what it was granted is granted to the tool named before its first dot |
| `PolicyForms.SavePolicy` | admin/server.py:526-531 | read, merge and write without a comparison: whatever is committed in between is overwritten |
| `PolicyForms.WrittenMeanwhileLost` | admin/server.py:526-531 | the rules after a save do not depend on what was committed between its read and its write |
| `PolicyForms.MeanwhileKept` | admin/server.py:526-531 | exactly when a decision stored at the moment of the write survives it |
| `PolicyForms.SetEnabledTools` | broker/operations.py:49-65 | the tools not listed lose their rules; the three readings of the stored policy and the write are separate transactions, with commits of others in between |
| `PolicyForms.ChosenDecides` | broker/operations.py:49-64 | whatever was committed between the readings, listed tools follow the rules first read under the exclusions last read, every other is denied |
| `PolicyForms.ChosenEnabled` | broker/operations.py:54-64 | the tools enabled afterwards are the chosen ones |
| `PolicyForms.ChosenTools` | admin/policy_edits.py:54-57 | shown but unselected tools are denied, every other follows its rules |
| `PolicyForms.ChosenUndotted` | broker/operations.py:57-58 | choosing tools adds no dotted tool id |
| `PolicyForms.HiddenToolKept` | admin/policy_edits.py:54-57 | a tool the form could not show keeps a decision if and only if it was not disabled in a managed policy with a ruling other than deny |
| `PolicyForms.HiddenToolReenabled` | admin/caller_settings.py:36-60 | the settings editor keeps the rules of a tool it disables; once the tool left the catalog, saving the tool form puts them in force |
| `ApprovalSummary.Summarize` | broker/approval_summary.py:64-97 | the loop over pointers with its size budget, counted on canonical text, writes the text of the card |
| `ApprovalSummary.NonInterference` | broker/approval_summary.py:35-97 | arguments that differ only under sensitive names give identical cards when no pointer goes beneath such a name |
| `ApprovalSummary.Interference` | broker/approval_summary.py:64-97 | exactly when the card tells given arguments from alike ones: some pointer goes beneath a sensitive name they hold and the entry for one of its two answers fits |
| `ApprovalSummary.EntryOf` | broker/approval_summary.py:85-91 | with distinct pointers, a value stands on the card under a pointer exactly when that pointer shows it and it fits after the earlier entries |
| `CanonicalJson.CanonicalText` | broker/approval_summary.py:13-14 | two parsed values have one canonical text exactly when they are equal, whatever the order of their fields |
| `CanonicalJson.CanonicalInjective` | broker/approval_summary.py:13-14 | the text determines the value up to the order of fields, escapes and surrogate pairs included |
| `ApprovalSummary.MaskAlike` | broker/approval_summary.py:41-61 | masking erases every difference under sensitive names, through depth, width and length limits |
| `ApprovalSummary.ShownAlike` | broker/approval_summary.py:71-83 | the same for one pointer, including whether its field is present |
| `ApprovalSummary.EntriesFit` | broker/approval_summary.py:85-91 | the card holds only configured pointers, in order, within the budget |
| `ApprovalCard.MaskDepicts` | broker/approval_summary.py:41-61 | every value shown is the argument it stands for, but for the named marks: which field each shown field stands for, in which order, at every depth |
| `ApprovalCard.PlainShown` | broker/approval_summary.py:41-61 | a value nested at most four deep, sixteen wide, with texts of at most 256 and names of at most 64 characters, none sensitive, is shown unchanged |
| `ApprovalCard.PartsOfPointer` | broker/approval_summary.py:71 | reading a pointer gives back the tokens it was written for |
| `ApprovalCard.PointerShows` | broker/approval_summary.py:71-83 | a pointer shows the argument its path leads to, or a mask exactly if the path goes through a sensitive name |
| `ApprovalCard.PointerMisses` | broker/approval_summary.py:82-83 | it says the field is not present when no path of its tokens leads anywhere |
| `ApprovalCard.CardShows` | broker/approval_summary.py:71-91 | an argument within the limits stands on the card as requested, under its pointer, exactly if its entry keeps to 1000 and 3600 characters; otherwise the entry says so |
| `ApprovalCard.OmittedCount` | broker/approval_summary.py:87-89 | the count of omissions is the number of pointers whose value was left out for its size |
| `ApprovalCard.OmissionsSo` | broker/approval_summary.py:67-97 | what the card says was left out |
| `ApprovalCard.SensitiveExactly` | broker/approval_summary.py:35-38 | a name is sensitive exactly if, reduced to lower-case letters and digits, it holds one of twelve words or is one of nine names |
| `JsonReader.CanonicalReads` | broker/approval_summary.py:13-14 | any JSON reader of the canonical text gets the value back, escapes and surrogate pairs included |
| `JsonReader.NamesAscend` | broker/approval_summary.py:13-14 | names are written in ascending order |
| `JsonReader.CanonicalPrintable` | broker/approval_summary.py:13-14 | the text is printable ASCII, so its length is its size |
| `Hydration.UnquoteQuote` | toolstack_forwarder/request_builder.py:107-108 | percent-decoding undoes percent-encoding |
| `Hydration.UnquoteDecodes` | toolstack_forwarder/request_builder.py:156 | decoding undoes every percent-encoding of a text, in either case |
| `Hydration.TokensSpell` | toolstack_forwarder/request_builder.py:40 | reading a template loses nothing of it |
| `Hydration.ReferenceFirst` | toolstack_forwarder/request_builder.py:40 | a name in braces is read as a reference, whatever follows it |
| `Hydration.AcceptedValue` | toolstack_forwarder/request_builder.py:137-170 | exactly which values are accepted: their length, their characters, and for a path no slash, backslash or two adjacent dots, before and after one decoding |
| `Hydration.RefusedValue` | toolstack_forwarder/request_builder.py:100-109 | an absent value or one that is no text is missing, any other refused one invalid |
| `Hydration.InsertedText` | toolstack_forwarder/request_builder.py:100-109 | the text inserted for a reference decodes to the stripped value and holds no delimiter; a path text yields no slash and no two adjacent dots, decoded once or twice |
| `Hydration.FillsExactly` | toolstack_forwarder/request_builder.py:100-109 | a template fills exactly when each of its references does |
| `Hydration.HydrateQuery` | toolstack_forwarder/request_builder.py:112-134 | the loop over pairs keeps the surviving ones, filled, or reports the first error |
| `Hydration.HydratePath` | toolstack_forwarder/request_builder.py:74-97 | path first, then query, with the first error |
| `Hydration.HydratesExactly` | toolstack_forwarder/request_builder.py:74-134 | a request is built exactly if the variables are an object or absent and every reference of the path and of each query pair kept fills |
| `Hydration.SurvivorsExactly` | toolstack_forwarder/request_builder.py:114-123 | the query pairs kept are those, not empty, that refer to no absent variable |
| `Hydration.FillingKeepsPieces` | toolstack_forwarder/request_builder.py:100-109 | filling keeps the pieces any delimiter separates: as many, in order, each filled on its own |
| `Hydration.RenderedStructure` | toolstack_forwarder/request_builder.py:74-134 | on accepted templates: the template's segments, one leading slash, exactly the surviving pairs in order with their own parts, no fragment |
| `Hydration.DotSegments` | toolstack_forwarder/request_builder.py:148-163 | exactly when a segment of the rendered path is "." or "..": its template piece is one dot or two, each literal or the whole value of a variable |
| `Hydration.TwoVariablesClimb` | toolstack_forwarder/request_builder.py:148-163 | two adjacent variables with the value "." render ".." |
| `Hydration.JoinedUrl` | toolstack_forwarder/request_builder.py:173-178 | the URL keeps the configured authority and base path and carries the rendered path and query unchanged |
| `Framing.ReadSse` | broker/runtime.py:310-334 | however the stream is cut, the reader returns the first matching event of one pass over the whole |
| `Framing.ReplyExactly` | broker/runtime.py:320-332 | the answer is the first event that is a JSON-RPC 2.0 response of that id with a result or an error, and there is none without such an event |
| `Framing.EncodedReads` | broker/runtime.py:310-332 | the reader's events are those a server sent, each the payloads it carried: with a space after "data:" or without, ending lines in a carriage return or not, and whatever other fields and comments stand between |
| `Framing.ReplyFinal` | broker/runtime.py:312-332 | once the reply arrived, nothing that follows can change it |
| `Framing.ReadSocketJson` | sps/wire.py:49-73 | short of the deadline the socket reads what the whole file reads, holding at most one byte beyond the cap |
| `Framing.AcceptsFirstLine` | sps/wire.py:76-111 | exactly the first line is accepted, and only when it fits the cap with its line feed |
| `Framing.LineSuffices` | sps/wire.py:76-92 | the line alone reads as the whole stream does |
| `Sessions.SignedVerifies` | admin/auth.py:64-94 | a signed session verifies exactly under its key, until it expires or is listed, with a table that reads |
| `Sessions.VerifiesExactly` | admin/auth.py:72-94 | of all cookies exactly those signed by the key over these fields verify, with an id of 32 hexadecimal digits, in time and not listed |
| `Sessions.HazardsAnytime` | admin/auth.py:108-127 | the holder of the lock may die, the table be damaged, the clock advance and the password be reset in any state, so that what is proved over runs holds against them |
| `Sessions.RunInv` | admin/auth.py:108-127 | the revocation table never exceeds 4096 entries |
| `Sessions.RevokedForever` | admin/auth.py:108-127 | once revoked, a session never verifies again under the stored key, across pruning, rotations, resets and crashes, for a reader whose clock is no earlier than the table it reads |
| `Sessions.RevokedSteps` | admin/auth.py:108-127 | an uninterrupted revocation is the steps of the machine in order |
| `Sessions.RevokesOne` | admin/auth.py:118-124 | below capacity a revocation ends that session and no other |
| `Sessions.StaleReader` | admin/auth.py:72-105 | over every run, exactly which reader a revoked session passes: the key it was signed under, a clock within its time, a table that reads, and since the revocation a write that left it out and none that listed it again |
| `Sessions.StaleInOrder` | admin/auth.py:119-125 | with a clock no earlier than the table, that write can only be the emptied table of a revocation at capacity |
| `Sessions.StalePasses` | admin/auth.py:119-125 | a revocation at capacity lets every listed session pass under the old key |
| `Sessions.StraddlingPasses` | admin/auth.py:84-92 | a session whose time runs out between the reader's look at the clock and its look at the table can pass under the stored key |
| `Sessions.SessionFiles.RevokeSession` | admin/auth.py:108-127 | the two readings of the clock and the two file writes in order, with a crash possible between the writes, and no effect when the table does not read |
| `Sessions.SessionFiles.RotateSecret` | admin/settings.py:152-158 | the key is replaced by a new one, the table kept |
| `AuditLog.AuditLogger.Event` | sps/audit.py:35-80 | what the files hold stays a suffix of all that was appended, only a rotation drops anything and then exactly the oldest generation, and no file exceeds the cap, also when a crash tears the line being written |
| `AuditLog.AuditLogger.Rotate` | sps/audit.py:61-72 | the descending renames drop at most the oldest generation, wherever they are cut off |
| `AuditLog.ShiftUp` | sps/audit.py:65-69 | one rename into a free place changes nothing a reader sees; over the oldest it drops exactly that |
| `AuditLog.CutExactly` | sps/audit.py:61-72 | what a rotation drops is the oldest generation, whole, and only if another takes its place |
| `AuditLog.WholeLines` | sps/audit.py:57-80 | a reader splitting at line feeds gets exactly the events appended |
| `AuditLog.ReadsGrouped` | sps/audit.py:57-80 | wherever writes were torn, a reader splitting at line feeds gets the events grouped up to each whole one |
| `AuditLog.GroupedKeeps` | sps/audit.py:77-80 | an event that is whole and does not follow a torn one reads as it was written |
| `AuditLog.FileReads` | sps/audit.py:61-80 | every generation reads so, whatever rotations and crashes came before |
| `AuditLog.TornCosts` | sps/audit.py:77-80 | a single torn line costs a reader itself and the event after it, and nothing else |
| `Toolyard.CleanupPartialStart` | toolyard/runner.py:425-443 | every known child is attempted, each confirmed exit keeps its receipt, and failure is reported exactly when one is left |
| `Toolyard.StopRuntime` | toolyard/runner.py:718-729 | every child is attempted, and the provider is told of a tool with a secret whatever that found |
| `Toolyard.StartRuntime` | toolyard/runner.py:596-716 | every process a start creates is confirmed gone or in the record it returns or raises; a launched tool is registered under its secret, and one that declares secrets is not launched without |
| `Toolyard.RecordOrRollback` | admin/toolyard_ops.py:45-58 | a runtime is saved, stopped again, or carried by the error |
| `Toolyard.StopRecorded` | admin/toolyard_ops.py:119-133 | only a confirmed stop forgets a record, and nothing is orphaned; what survives is saved in its place, and the provider is told |
| `Toolyard.Start` | admin/toolyard_ops.py:104-143 | no orphan the error does not carry, nothing spawned before the recorded runtime is confirmed gone, and a tool started is registered under the secret it is recorded with; one found alive, or that could not be inspected, is left alone, and a start fails only for a stated reason |
| `Toolyard.Stop` | admin/toolyard_ops.py:146-159 | a successful stop confirmed every recorded process gone |
| `Toolyard.Restart` | admin/toolyard_ops.py:162-165 | a restart whose stop is not confirmed starts nothing; one that succeeds confirmed every old process gone and recorded a new one, registered under the secret it is recorded with |
| `SpsRecovery.StepKeeps` | toolyard/runner.py:181-238 | every step of starts, stops, passes, restarts and crashes keeps the recovery invariant |
| `SpsRecovery.StartsExactly` | admin/toolyard_ops.py:120-132 | a recorded tool is started anew only if it is positively dead, and never when it could not be inspected |
| `SpsRecovery.SettlesExactly` | admin/toolyard_ops.py:123-133 | after a stop the record is forgotten exactly on a confirmed exit, and the tool started again exactly if that was the purpose and the record is known to be gone |
| `SpsRecovery.RegistersExactly` | toolyard/runner.py:636-660 | a tool launches with its secret exactly once the provider took it, and without one only if no provider is in use or it declares nothing |
| `SpsRecovery.LaunchesExactly` | admin/toolyard_ops.py:134-143 | a spawned process is recorded once it is ready, and cleaned up when it is not or cannot be recorded |
| `SpsRecovery.EditsExactly` | admin/toolyard_ops.py:173-182 | edited declarations reach the record of a tool that has one and change nothing else |
| `SpsRecovery.HazardsAnytime` | admin/sps_watchdog.py:1-22 | provider restarts, process deaths, crashes, failed passes and delayed calls can come in any state, so that what is proved over runs holds against them |
| `SpsRecovery.AcknowledgedRegistered` | admin/sps_watchdog.py:89-129 | whenever the acknowledged boot is the running one, a live recorded tool with a secret, unless its cleanup was left unconfirmed, is registered under it exactly when no delayed call harmed it |
| `SpsRecovery.DelayedCallBreaks` | sps/server.py:194-202 | a delayed call that lands leaves a live tool registered exactly if it is a registration under the tool's present secret |
| `SpsRecovery.DelayedCallReachable` | toolyard/runner.py:718-729 | a run from an empty start in which a delayed unregistration takes a live tool's registration away |
| `SpsRecovery.OnlyPassAcknowledges` | admin/sps_watchdog.py:102-129 | a provider restart revokes the acknowledgement, and only a complete pass under that boot restores it |
| `SpsRecovery.ReregisterResults` | toolyard/runner.py:188-238 | a pass over the provider's pool takes exactly the machine's steps, and is complete exactly when every due tool had its declarations recorded and its registration confirmed |
| `CatalogObservation.FingerprintTells` | broker/registry.py:197-210 | fingerprints are equal exactly for equal sources, tools and definitions, whatever the file digests |
| `CatalogObservation.HazardsAnytime` | broker/server.py:364-373 | the broker may be killed, started anew or fail a reload, and the observer give up, in any state; a running broker outlives a failed reload and a starting one does not |
| `CatalogObservation.Context.PublishCatalogReceipt` | broker/server.py:356-362 | receipt and id are published for the loaded catalog, in the machine's steps |
| `CatalogObservation.Context.ReloadRegistry` | broker/server.py:365-384 | a reload, inside any other, takes the machine's steps; a failed one keeps the catalog and certifies nothing |
| `CatalogObservation.NeverAgain` | broker/server.py:356-373 | an observation id the broker let go of never comes back, however reloads are nested |
| `CatalogObservation.Bracketed` | admin/catalog_observation.py:13-31 | two health reads with one answer bracket a single, unchanged catalog and receipt, however reloads are nested |
| `CatalogObservation.VerifiedExact` | admin/catalog_observation.py:9-34 | a verified answer is right throughout its two health reads exactly when the broker did not answer the first with a receipt of another catalog |
| `CatalogObservation.VerifiedSound` | admin/catalog_observation.py:9-34 | a verified answer is right in every run in which no reload installed another catalog while an id was answered, or about to be announced, for the old |
| `CatalogObservation.HarmExactly` | broker/server.py:365-373 | of all steps exactly such an installation leads from a sound state to one that can mislead |
| `CatalogObservation.FlatHarmless` | broker/server.py:401-407 | reloads that come one at a time never install so |
| `CatalogObservation.HarmedMisleads` | broker/server.py:356-373 | every state so reached has a continuation to a wrong verdict |
| `CatalogObservation.StoringMisleads` | broker/server.py:356-362 | so has every state in which a reload has worked out its fingerprint and not yet stored it |
| `CatalogObservation.NestedReloadMisleads` | broker/server.py:356-373 | a run from a system never started to a wrong verdict |

## Left out

- HTTP, TLS, MCP ingress, pages, the command line, the rate limiter and the login guard: environment or small
  counters.
- Audit events, correlation ids, best-effort withdrawal of cards from the surface, and the redaction of notes: no
  effect on the rows modelled.
- The legacy status "running", `create_request`, `update_approval` and `_parse_sse`: unused.
- Reading a receipt (`authorized_request`) and the mapping of a row to an HTTP outcome: single reads without effect.
- SQLite, file modes, links, fsync, signals, Docker and sandbox launchers: one step, or a confirmed or unconfirmed
  outcome.
- `ProtocolSafety.DispatchedAtMostOnce`: speaks of one database; a key first used after a snapshot was taken is
  unknown to the copy restored from it.
- `ApprovalSummary.Interference`: asks for distinct pointers, as `validate_fields` does; its other checks are left out,
  since the results hold without them. The text of a number is taken as given.
- `PolicyForms.MergeGrants`: models the web form, which always passes a field map; the order of the three lists
  carries no meaning and is sorted here. `retained_draft` only redisplays a form.
- `Hydration.HydratePath`: errors carry a code and a name, not a message; lone surrogates, which are no characters,
  are not representable. Headers, bodies and secret references are not part of this model.
- `Framing.ReadSse`: a stream cut off by the byte budget or the deadline is the pieces that arrived before it; the
  error raised then is not distinguished from the one for no matching event.
- `AuditLog.AuditLogger.Event`: models one process; a second one writing the same files is left out.
- `Toolyard.StartRuntime`: models the process backend; how an exit is confirmed (boot id, start time, reaping) is
  one outcome of its host. `SpsRecovery` models the same starts and stops from the provider's side; the two share the
  provider and what it means to be registered, and no lemma relates their processes.
- `CatalogObservation.VerifiedSound`: parsing manifests is a parameter, so it says nothing about edits during the
  observer's own read.
