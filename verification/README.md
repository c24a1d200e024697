# A verified model of the policy decision engine and its Odoo commit protocol

The repository decides access requests with a policy engine (PDP) and makes an
Odoo purchase order commit only under a current decision. This project models
its four hard parts in Dafny and proves what they promise, over every input and
every interleaving.

**Commit-time authorization** (`ErpDatabase`, `CommitProtocol`,
`CommitInvariants`, `CommitSteps`, `CommitSafety`, `CommitConditions`,
`CommitProgress`, `LineExclusion`, `Exposure`, `ExposedRuns`, `BindingExactness`,
`LateDelegation`). One state holds the ERP
database with open REPEATABLE READ transactions, and the PDP database with policy writers, revocations and answers.
Each step is atomic. A `FOR UPDATE` returns only if nobody else holds the row,
nobody has inserted a line under it, and it is unchanged since the transaction's
snapshot. An inserted line takes its foreign key's `FOR KEY SHARE` on the order,
which waits for a `FOR UPDATE` and for nothing else. A crash is a run in which a
process takes no further step. The steps stand for this code:

- `BeginConfirm`, `HoldOrder`, `ClaimCommand`: `_delegated_request` and `_locked_delegation_nonce` in `purchase_order.py`
- `BindApproval`, `Terminate`, `CommitTerminal`: `_prepare_final_intent` and `_revalidate_approved_capability`
- `TakeAnswer`, `HoldFence`, `HoldEpoch`, `HoldPolicy`: the PDP answer, the revocation fence and `_lock_current_authority`
- `CommitExecution`, `CommitPending`: the direct and the approved route to commit, with the deferred deadline trigger, and `create_pending`
- `CreateOrder`, `PutOrder`, `PutLine`, `PutAuthority`, `IssueCapability`: every other ERP writer
- `FetchBundle`, `Evaluate`, `Bootstrap`: the PDP's loading, answering and `EnsureERPPolicyRevision`
- `CloseBarrier`, `Mutate`, `ReadRevision`, `LiftBarrier`: `fencedPolicyMutation`
- `WriteTombstone`, `PublishRevocation`, `FailPublication`: `PersistRevocation` of the ERP store

Assumed, as the repository states: every policy writer uses the fence from the
start, PDP revisions start at 1 or more, and loaded snapshots come only from
database bundles. An order with a grant carries the delegation marker. No hash
collides where an intent is compared by its hash, and a newly minted command id
is none that was minted before. Orders are created as drafts. A confirming transaction confirms one order,
where `button_confirm` loops over several.

**Policy engine** (`AddressText`, `Expr`, `ExprMeaning`, `Folding`,
`ScratchEvaluator`, `RoleGraph`, `RoleDag`, `PolicyTrie`, `Decision`, `Parser`,
`Grammar`, `PolicyParser`). What each kind of condition means, constant folding
against evaluation, the 64-slot evaluator against pure evaluation, the role
closure against paths, the hash index against a scan, the decision against the
policies, and the Pratt parser against a printer and against a grammar. (`DecimalText` and `Basics`
hold what several modules share.) Library calls (IP, CIDR
and time parsing, integer and boolean reading, list splitting) are function
values: nothing is assumed of them except where a lemma says so.

**Replication** (`Replication`, `RoleRace`, `EngineAgreement`,
`RevocationCache`, `RevocationFeed`, `AuditTrail`). Tenant revisions, role
replacements side by side, snapshots in any number of engines and what those
engines decide, the revocation cache under compare-and-swap, its feed from a
database with a clock of its own, and the audit queue with callers that log at
any time.

**Encodings and money** (`Encoding`, `CanonicalIntent`, `Sorting`, `OrderLines`,
`Money`). Length-prefixed payloads, order lines, and minor units as text.
SHA-256, HMAC, UTF-8, NFC, base64url and timestamp checks are function values.

## Findings

- Binding to the current lines can fail for an order delegated after its
  creation. A line editor whose snapshot predates the delegation does not touch
  the order, and may commit between the confirmation's snapshot and its lock.
  `LateDelegationEscapesBinding` has such a run for a direct execution and one
  for an approved execution. `BindingExact` gives the exact condition: no editor
  that saw the order before its delegation is open when the confirmation begins.
- Two role replacements side by side can store the union of their lists, which
  may be cyclic although both lists passed the check: a `DELETE` under READ
  COMMITTED does not see the rows the other inserts. `RolesBuildIffFenced` shows
  the run, and that the ERP policy fence excludes it.
- Reading an amount is exact up to 28 digits only, the precision of the decimal
  arithmetic. `RoundingAccepts` shows an amount finer than the currency that is
  accepted, and `TextRoundTrip` that such texts are exactly the longer ones.
- Folding changes meaning in exactly three shapes: a non-boolean left of
  `&& false`, an equality of one time with itself, and an attribute compared
  with an operand that only folding makes a literal. `FoldingExact` proves that
  there are no others.
- Index lookup skips policies for any action when the requested action hashes
  like `any`. `IndexExact` gives the exact condition.
- Readiness of the revocation feed does not cover the time between losing the
  database connection and noticing it. `LossBeforeNotice` is such a run, and
  `UncoveredExactly` says which revocations are uncovered.
- A comment at internal/engine/evaluator.go:522 expects IPv6 text to reach the
  library parser. The loop before it already refuses the colon, as
  `StrangeRefused` proves, so an attribute never reads as an IPv6 address.

## Model

| member | source | states |
|---|---|---|
| `CommitSafety.PolicyFenceSafety` | internal/storage/erp_policy_fence.go:15-65 | in every reachable state each committed execution was decided only under the PDP revision of its commit instant, with the authority it read still current, and in time |
| `CommitSafety.ExecutionWasAllowed` | custom_addons/pdp_authorizer/models/purchase_order.py:205-260 | every answer an execution in the log relied on was given by the PDP, allows, is for its tenant and has the revision of its commit; a direct execution has one that asks for no approval, an approved one two of which the first asks for none |
| `CommitConditions.ExecutionConditions` | custom_addons/pdp_authorizer/models/purchase_order_final.py:64-122 | each execution that commits finds the order delegated under a current and unrevoked grant, the fence open at its revision and what it read unchanged; a direct one finds its command new, an approved one an unexpired approval of exactly the standing order and lines; the log has the intents, fence and authority of that instant; attempt and approval are closed and nothing else changes |
| `CommitConditions.ParkingConditions` | custom_addons/pdp_authorizer/models/approval_request.py:86-120 | an approval comes into being only for an answer that allows and asks for it, and for the order as the same commit leaves it |
| `CommitConditions.ApprovalConditions` | custom_addons/pdp_authorizer/models/approval_capability.py:49-80 | an approval is given only while its order awaits it, under a grant that was active when the approver looked and that it does not outlive, and keeps its intent |
| `CommitConditions.ApproverFinds` | custom_addons/pdp_authorizer/models/approval_capability.py:49-71 | whichever step opens an approver's transaction finds the approval pending, its order waiting and the grant in force |
| `CommitConditions.ExpiryConditions` | custom_addons/pdp_authorizer/models/approval_invalidation.py:22-48 | an approval is declared expired only after its time |
| `CommitConditions.FinalOnlyByExecution` | custom_addons/pdp_authorizer/models/purchase_order.py:185-260 | a delegated order becomes final only by an execution of its own |
| `CommitConditions.TerminationCloses` | custom_addons/pdp_authorizer/models/approval_invalidation.py:162-172 | a confirmation that gives up an approval closes it as invalidated or expired and changes nothing else |
| `LineExclusion.NoLineUnderHeldOrder` | custom_addons/pdp_authorizer/models/purchase_order.py:154-170 | in every run, while a confirmation or an approver holds an order, no line comes to stand under it |
| `LineExclusion.EditorsInsertTogether` | custom_addons/pdp_authorizer/models/purchase_order_line_guard.py:9-27 | an insert under an undelegated order does not wait for other editors |
| `LineExclusion.ChangesDoNotWait` | custom_addons/pdp_authorizer/models/purchase_order_line_guard.py:9-27 | changing or removing a line of an order seen as undelegated waits for nobody who holds the order |
| `CommitProgress.PublicationReopens` | internal/storage/erp_policy_fence.go:21-65 | a publication that finishes leaves the fence open at the revision it made, two row versions on, and nothing else changed |
| `CommitProgress.AnswersFreshly` | internal/engine/sync.go:223-252 | at any time the PDP can load a tenant and answer under its current revision, and deny for one it has not loaded |
| `CommitProgress.RevocationEnds` | internal/storage/erp_revocation_fence.go:50-71 | a revocation leaves its tombstone whether its publication succeeds or fails, and nothing else changed |
| `BindingExactness.ReadyExecutes` | custom_addons/pdp_authorizer/models/purchase_order_final.py:49-122 | a confirmation that nothing stands in the way of executes, directly or by its approval |
| `CommitSafety.ApprovedIntentBinding` | custom_addons/pdp_authorizer/models/approval_final_intent.py:18-86 | an approved execution signed the stored intent, and an execution that began beside no editor from before the delegation signed the intent of the order and all its lines at commit |
| `BindingExactness.BindingExact` | custom_addons/pdp_authorizer/models/purchase_order_line_guard.py:9-27 | of a confirmation that can execute at all, directly or by approval, every execution is bound to the order's lines if and only if no open editor saw the order before its delegation |
| `Exposure.ShieldedIsBound` | custom_addons/pdp_authorizer/models/purchase_order_line_guard.py:9-50 | a confirmation that begins beside no such editor executes the lines that stand at its commit |
| `BindingExactness.ExposedEscapes` | custom_addons/pdp_authorizer/models/cbi_builder.py:19-61 | beside such an editor there is a run in which the confirmation executes without one of the lines |
| `LateDelegation.LateDelegationEscapesBinding` | custom_addons/pdp_authorizer/models/purchase_order_line_guard.py:9-27 | for the direct and for the approved route, a reachable execution of a later-delegated order whose current intent is not the signed one, although the approved one is |
| `CommitSafety.AtMostOnce` | custom_addons/pdp_authorizer/models/purchase_order.py:73-170 | no command executes twice, no commit leaves the pending attempt it claimed with, an attempt is executed exactly when the log has it, and no command id serves two orders |
| `CommitSafety.ConsumedOnlyByExecution` | custom_addons/pdp_authorizer/models/purchase_order_final.py:98-123 | an approval becomes consumed only from approved, in the commit that marks its attempt executed and leaves its order final |
| `CommitSafety.TerminalApprovalsNeverChange` | custom_addons/pdp_authorizer/models/approval_invalidation.py:22-48 | along every run a terminal approval keeps its row |
| `CommitSafety.StepMoves` | custom_addons/pdp_authorizer/models/approval_invalidation.py:162-172 | each step moves approvals only along their life, never takes back a tombstone, and executes only past an open fence |
| `CommitSafety.TombstoneIsFinal` | custom_addons/pdp_authorizer/models/revocation_fence.py:22-37 | once a tombstone has committed it stays and nothing executes under its grant again |
| `CommitSafety.RevocationHasTombstone` | internal/storage/erp_revocation_fence.go:50-71 | a revocation past its first transaction has its tombstone whether or not publication succeeded |
| `CommitSafety.CrashedPublicationFailsClosed` | internal/storage/erp_policy_fence.go:26-51 | a publication that never lifts its barrier keeps the tenant closed and nothing executes for it |
| `CommitSafety.ExecutionIsSafe` | custom_addons/pdp_authorizer/models/purchase_order_final.py:64-122 | under the invariant a commit is allowed by every answer, decided under the current revision, bound, unrevoked, authorised and in time all at once |
| `CommitSafety.IntentIsCurrent` | custom_addons/pdp_authorizer/models/purchase_order_line_guard.py:9-50 | while a delegated order is locked its lines are current although new lines carry no lock, if the confirmation began beside no editor from before the delegation |
| `CommitSafety.AuthorityIsCurrent` | custom_addons/pdp_authorizer/models/authority_fence.py:23-53 | while the epoch is locked every user and grant read is current |
| `CommitSafety.PolicyIsCurrent` | custom_addons/pdp_authorizer/models/authority_fence.py:54-62 | a locked ready fence that matches every answer shows the PDP database revision |
| `CommitSafety.StepKeepsInv` | custom_addons/pdp_authorizer/models/purchase_order.py:185-260 | every step of every process keeps the whole invariant |
| `CommitInvariants.OthersSeeCommit` | custom_addons/pdp_authorizer/models/purchase_order_line_guard.py:9-27 | a commit that updates the guard of what it changes keeps every other transaction's view |
| `CommitSteps.FencesPdp` | internal/storage/erp_policy_fence.go:15-65 | bootstrap, barrier, mutation, reread and lift keep the fence equal to the PDP revision while open, with one owner while closed |
| `CommitInvariants.ClaimOverwritten` | custom_addons/pdp_authorizer/models/authorization_attempt.py:35-85 | the last writes of a confirmation leave nothing of its pending attempt |
| `CommitInvariants.CommitKeepsLines` | custom_addons/pdp_authorizer/models/purchase_order_line_guard.py:9-50 | a commit that writes lines only with their order keeps every open confirmation's view of its lines |
| `CommitSteps.NonceCommit` | custom_addons/pdp_authorizer/models/purchase_order.py:154-170 | storing a command id with its attempt keeps each id on one order |
| `CommitSteps.CommandsExecution` | custom_addons/pdp_authorizer/models/authorization_attempt.py:35-85 | an execution adds one new command to the log and leaves its attempt executed |
| `Folding.FoldingExact` | internal/parser/compiler.go:122-307 | folding preserves a condition and all its parts in every request, errors included, if and only if no node has one of the three unsafe shapes |
| `Folding.SafeIsPreserved` | internal/parser/compiler.go:220-307 | a safe tree evaluates as its folded form in every request |
| `Folding.OrdinaryIsSafe` | internal/parser/compiler.go:220-347 | leaves compared, booleans connected and no two times equated is safe |
| `Folding.OptimizePreservesMeaning` | internal/parser/compiler.go:122-166 | the compiler's walk keeps the meaning of an ordinary retyped condition |
| `Folding.OptimizeIsFoldOfRetype` | internal/parser/compiler.go:122-217 | one walk equals retyping then folding, and the second retyping pass never changes a node |
| `Folding.OptimizeIdempotent` | internal/parser/compiler.go:122-166 | compiling twice changes nothing more |
| `Folding.ConstantsFold` | internal/parser/compiler.go:220-347 | a condition without attributes whose operators fit its operands folds to the literal it evaluates to |
| `Folding.TextsCompile` | internal/parser/compiler.go:185-217 | a text beside an attribute becomes an address, else a network, else a time, else stays |
| `Folding.OthersCompile` | internal/parser/compiler.go:122-217 | other literals, attributes and operators stay as they are |
| `Folding.EqualTimesFoldApart` | internal/parser/compiler.go:309-324 | two equal times evaluate equal and fold to unequal |
| `Folding.UnsafeType` | internal/engine/evaluator.go:301-319 | an operand that folds to a literal changes how the attribute is read, and some request shows it |
| `Folding.NoMismatchLeft` | internal/parser/compiler.go:174-184 | without recorded mismatches no ordering of two literal types is left |
| `Folding.Compiler.OptimizeNode` | internal/parser/compiler.go:122-166 | returns the folded retyped tree and records exactly the mismatches |
| `Folding.Compiler.CheckDepth` | internal/parser/compiler.go:99-119 | accepts exactly the trees within the depth limit |
| `Folding.Compiler.Compile` | internal/parser/compiler.go:33-60 | succeeds exactly without errors and within depth, and keeps the meaning of ordinary conditions |
| `ScratchEvaluator.EvalContext.Evaluate` | internal/engine/evaluator.go:198-299 | with any slots taken, past the last included, the result equals pure evaluation, taken slots are never rewritten, and the result cannot be overwritten later |
| `ScratchEvaluator.EvalContext.EvaluateComparison` | internal/engine/evaluator.go:301-402 | the left value survives reading the right one, and the comparison equals the pure one |
| `ScratchEvaluator.EvalContext.GetAttribute` | internal/engine/evaluator.go:102-149 | reads the attribute as the pure function does, in a slot or on the heap |
| `ExprMeaning.VariableMeans` | internal/engine/evaluator.go:102-149 | `principal.f`, `resource.f` and `context.f` read their own keys, and the two ids are the request's |
| `ExprMeaning.AttributeCompares` | internal/engine/evaluator.go:301-350 | an attribute beside a literal is read as its kind, and each of the six comparisons then is the one on integers, instants or texts |
| `ExprMeaning.ValuesCompare` | internal/engine/evaluator.go:328-350 | the same for two values |
| `ExprMeaning.TextOrder` | internal/engine/evaluator.go:421-437 | text order is decided at the first difference, and a proper prefix is smaller |
| `ExprMeaning.NameCompares` | internal/engine/evaluator.go:301-326 | beside anything that is a text an attribute is its text |
| `ExprMeaning.AddressCompares` | internal/engine/evaluator.go:352-357 | an attribute read as an address is within a network or equal to another as the library says |
| `ExprMeaning.KindsDiffer` | internal/engine/evaluator.go:404-437 | values of two kinds are unequal and unordered |
| `ExprMeaning.ComparisonFailsClosed` | internal/engine/evaluator.go:317-326 | a comparison with a failing part, a missing attribute or an unreadable text is false |
| `ExprMeaning.MembershipMeans` | internal/engine/evaluator.go:358-373 | `in` on texts is a path of the role graph, with or without the prefix on either side |
| `ExprMeaning.AttributeMembership` | internal/engine/evaluator.go:358-373 | the same for an attribute |
| `ExprMeaning.AndMeans` | internal/engine/evaluator.go:244-264 | the truth table of `&&` with failures and non-booleans |
| `ExprMeaning.OrMeans` | internal/engine/evaluator.go:266-292 | the truth table of `||` with failures and non-booleans |
| `ExprMeaning.OthersMean` | internal/engine/evaluator.go:203-240 | literals, `!` and 64-bit negation |
| `ExprMeaning.ThresholdHolds` | internal/engine/decision.go:147-158 | a permit under `attribute > n` holds exactly when the attribute reads as a number above `n` |
| `ScratchEvaluator.EvalContext.ParseStringValue` | internal/engine/evaluator.go:151-195 | reads text into the newest slot and buffer with indices in range |
| `AddressText.ParseIPv4Fast` | internal/engine/evaluator.go:496-537 | one pass accepts exactly the dotted quads, passes on text that only lacks numbers, and refuses the rest |
| `AddressText.StrangeRefused` | internal/engine/evaluator.go:501-520 | any character that is neither digit nor dot refuses the text |
| `AddressText.QuadBytes` | internal/engine/evaluator.go:525-536 | a quad is read as its four numbers in order, at the end of the sixteen bytes of a mapped address |
| `ScratchEvaluator.EvalContext.Alloc` | internal/engine/evaluator.go:48-56 | gives the next slot, or none once all are taken |
| `RoleGraph.NewEdgeCycles` | internal/engine/dag.go:42-69 | a new edge keeps an acyclic graph acyclic exactly when its child does not lead to its parent |
| `RoleGraph.BuildableIffAcyclic` | internal/engine/state_writer.go:21-28 | a list of edges adds without rejection exactly when it has no cycle |
| `RoleGraph.AnyOrderBuilds` | internal/engine/state_writer.go:21-28 | an acyclic list builds in every order with the same inheritance |
| `RoleDag.HasCycle` | internal/engine/dag.go:115-148 | the three-colour search answers true exactly when there is a cycle |
| `RoleDag.CycleSearch.Dfs` | internal/engine/dag.go:118-136 | finds a cycle, or extends the finish order and restores the path |
| `RoleDag.RoleDag.AddInheritance` | internal/engine/dag.go:42-69 | accepts exactly the edges that close no cycle, keeps closure and lists right, and a rejected call changes nothing |
| `RoleDag.RoleDag.RebuildTransitiveClosure` | internal/engine/dag.go:152-170 | closure and role lists are those of the graph |
| `RoleDag.RoleDag.DfsCollect` | internal/engine/dag.go:172-183 | collects only inherited roles and is closed under direct inheritance |
| `RoleDag.RoleDag.IsDescendant` | internal/engine/dag.go:74-88 | holds exactly when the roles are equal or joined by a path |
| `RoleDag.RoleDag.GetInheritedRoles` | internal/engine/dag.go:93-112 | lists the role and each inherited role exactly once |
| `RoleDag.ValidateRoleInheritances` | internal/storage/policy_bundle.go:104-151 | accepts exactly the well-formed, duplicate-free, acyclic lists |
| `RoleDag.RoleListCheck.Visit` | internal/storage/policy_bundle.go:127-145 | refuses only on a cycle, and otherwise finishes the role in order |
| `RoleDag.BuildRoles` | internal/engine/state_writer.go:21-28 | any reading order of a stored acyclic list builds, with the stored list's inheritance |
| `PolicyTrie.TrieRoot.IndexExact` | internal/engine/trie.go:135-261 | for any hash function and distinct names, index and scan return the same multiset if and only if nothing in scope is skipped by a collision with `any` |
| `PolicyTrie.TrieRoot.IndexEqualsScan` | internal/engine/trie.go:214-261 | the index returns as a multiset the scan less the skipped policies |
| `PolicyTrie.TrieRoot.AddPolicy` | internal/engine/trie.go:135-197 | after any additions each place holds exactly the policies that belong there, in order |
| `PolicyTrie.TrieRoot.LookupPoliciesInto` | internal/engine/trie.go:214-261 | appends the global policies and then each visited place |
| `PolicyTrie.LeafAfterAdd` | internal/engine/trie.go:174-196 | adding at one place changes that place and no other, whatever collides |
| `PolicyTrie.EnsureAnyInto` | internal/engine/trie.go:266-283 | the list with `any`, for every length |
| `PolicyTrie.CollisionSkips` | internal/engine/trie.go:243-257 | under every hash that takes the requested action for `any`, a policy for any action in scope is missed |
| `PolicyTrie.Key` | internal/engine/trie.go:100-105 | a key is `any` exactly for a wildcard |
| `Decision.EvaluatePermission` | internal/engine/decision.go:115-203 | ALLOW exactly when some consulted permit holds and no consulted forbid does, in any order, with an explanation that holds and the reason that applies |
| `Decision.ScopeAsText` | internal/engine/trie.go:100-105 | a policy speaks about a request by what its clauses spell: the subject or a role it inherits, the resource, and the action with or without prefix |
| `Decision.FirstOf` | internal/engine/decision.go:143-168 | the early break loses no forbid, and without one finds a permit exactly when there is one |
| `Decision.Holds` | internal/engine/decision.go:147-158 | an error or non-boolean satisfies neither `when` nor `unless` |
| `Decision.LookedUp` | internal/engine/trie.go:214-261 | what lookup returns for a subject and its roles is what is in scope and not skipped |
| `Decision.RequestSeesRoles` | internal/engine/evaluator.go:349-369 | a role comparison in a condition sees exactly the paths of the role graph |
| `Decision.NothingInScopeSkipped` | internal/engine/decision.go:86-91 | without a collision everything in scope is consulted |
| `Parser.RoundTrip` | internal/parser/parser.go:298-484 | every expressible condition printed with parentheses only where needed parses back to itself without error |
| `Parser.ShowParses` | internal/parser/parser.go:298-317 | parsing a printed tree in any context leaves it as the left side of what follows |
| `Parser.NoErrorsNoHoles` | internal/parser/parser.go:298-484 | on every token stream, without errors no child is missing |
| `Grammar.ParserIsGrammar` | internal/parser/parser.go:9-33 | the parser accepts a text as a whole if and only if the layered grammar derives it, and gives the derived tree |
| `Grammar.GrammarParses` | internal/parser/parser.go:298-484 | a derived text followed by no operator parses to its tree without error |
| `Grammar.OneTree` | internal/parser/parser.go:9-33 | no text has two trees |
| `PolicyParser.PolicyRoundTrip` | internal/parser/parser.go:156-295 | every well-written policy printed parses back to itself |
| `PolicyParser.SourceRoundTrip` | internal/parser/parser.go:140-152 | every list of well-written policies printed parses back to those policies and no others, without error |
| `PolicyParser.SourceWithoutErrors` | internal/parser/parser.go:140-243 | a source without recorded errors gives only complete statements |
| `PolicyParser.ParsePolicy` | internal/parser/parser.go:156-243 | without errors there is a statement with nothing missing |
| `PolicyParser.TokenParser.ParseExpression` | internal/parser/parser.go:298-317 | the token loop computes the parsing function and terminates |
| `PolicyParser.TokenParser.Parse` | internal/parser/parser.go:140-152 | reads any token stream to its end and returns what the functions say |
| `PolicyParser.TokenParser.ParseStatement` | internal/parser/parser.go:156-243 | reads one policy as the functions say |
| `PolicyParser.TokenParser.ParseScopeClause` | internal/parser/parser.go:248-295 | reads one scope clause as the functions say |
| `PolicyParser.TokenParser.ParseObligationClause` | internal/parser/obligation.go:10-24 | reads one obligation as the functions say |
| `Replication.RevisionDeterminesBundle` | internal/storage/postgres.go:157-301 | over every run, equal revisions of a tenant have equal active policies and roles |
| `Replication.SnapshotAgreement` | internal/storage/policy_bundle.go:19-76 | what an engine has loaded is the bundle some earlier database state had at the loaded revision, and is never ahead of the database |
| `EngineAgreement.SameRevisionSameDecision` | internal/engine/state_writer.go:21-33 | in every run, engines that loaded one revision give every request the same verdict for the same reason |
| `EngineAgreement.BuildTenantTrie` | internal/engine/state_writer.go:21-33 | builds the index of exactly the compiled policies and the graph of exactly the roles, or refuses a cyclic list |
| `EngineAgreement.Serve` | internal/engine/decision.go:115-203 | an engine decides over the policies and roles of the snapshot it built |
| `EngineAgreement.EvalAlike` | internal/engine/evaluator.go:349-369 | a condition depends on the role graph only through inheritance |
| `Replication.NeverMovesBack` | internal/engine/engine_gc.go:204-226 | while a tenant stays loaded its revision never falls, and an equal revision is the same snapshot |
| `Replication.InstallTakesEffect` | internal/engine/engine_gc.go:204-226 | in every run, installing a bundle that builds leaves the engine at least at its revision, and with exactly that bundle if it had none or an older one |
| `Replication.InstallConverges` | internal/engine/sync.go:223-252 | a bundle fetched at the revision the database still has brings its engine up to date |
| `Replication.PolicyEffects` | internal/storage/postgres.go:157-301 | what publish, update, delete and each part of a role replacement do to the active policies, the roles and the revision |
| `Replication.FetchReads` | internal/storage/policy_bundle.go:19-76 | a fetch reads the revision, the roles and each active policy once with its text, all of one instant |
| `Replication.FetchPossible` | internal/storage/policy_bundle.go:19-76 | every stored bundle can be fetched |
| `Replication.OthersUntouched` | internal/engine/state_writer.go:35-54 | a step for one tenant of one engine leaves every other snapshot as it was |
| `Replication.ChangeMakesRevision` | internal/storage/postgres.go:157-301 | every storage call that changes active policies or roles makes a new revision in the same transaction |
| `Replication.FetchedRolesBuild` | internal/storage/policy_bundle.go:80-102 | behind one fence the roles of every fetched bundle build without a rejected edge |
| `RoleRace.RolesBuildIffFenced` | internal/storage/erp_policy_fence.go:21-25 | every fetched role graph builds, in every run, if and only if the writers share a fence |
| `Replication.ReplacesExactly` | internal/storage/policy_bundle.go:84-101 | a replacement stores exactly its own list if and only if no row was inserted since it deleted |
| `Replication.Engine.SyncTenantWithRevision` | internal/engine/sync.go:223-252 | a bundle that compiles, is not behind the request and has acyclic roles is installed exactly if nothing or an older revision is loaded, and otherwise nothing changes; the error says which of the three failed |
| `Replication.Engine.UnloadTenant` | internal/engine/engine_gc.go:229-240 | removes that tenant and no other |
| `Replication.Engine.CopyWithout` | internal/engine/state_writer.go:46-54 | copies every other tenant |
| `RevocationCache.RevokedIffDelivered` | internal/security/delegation.go:144-212 | in every run, with no apply under way, a grant is revoked exactly when some step of the run delivered a proper record for it that has not expired |
| `RevocationCache.AnswersAreBracketed` | internal/security/delegation.go:187-202 | whatever goes on between load and answer, a lookup says yes only if a step before its load delivered a proper record that outlives the answer, and no only if every record whose apply had returned by then has expired |
| `RevocationCache.SoloApplies` | internal/security/delegation.go:144-174 | left alone, an apply of a proper record ends in three steps with the grant revoked for at least as long, and no other entry changed |
| `RevocationCache.HeldStays` | internal/security/delegation.go:144-174 | no step shortens a revocation in force |
| `RevocationCache.Merge` | internal/security/delegation.go:163-169 | a merge takes the later expiry and the earlier revocation |
| `RevocationFeed.ReadyCovers` | internal/storage/revocation.go:64-115 | while ready over a live connection every committed revocation that neither clock finds expired is in force or queued |
| `RevocationFeed.CommittedIsCovered` | internal/storage/revocation.go:16-115 | while ready over a live connection, whatever a step of the run committed and neither clock finds expired is in force for as long, or queued |
| `RevocationFeed.CachedWasCommitted` | internal/storage/revocation.go:64-115 | what the cache holds for a grant was in the table or committed by a step, for at least as long |
| `RevocationFeed.UncoveredExactly` | internal/security/revocation_sync.go:81-118 | while ready, a revocation is uncovered exactly when it was lost with a connection not yet noticed gone and nothing in force lasts as long |
| `RevocationFeed.LossBeforeNotice` | internal/security/revocation_sync.go:81-118 | a run that is ready and leaves a revocation neither applied nor queued |
| `AuditTrail.AuditLogger.Stop` | internal/audit/logger.go:240-250 | stopping a running worker empties queue and batch; each entry logged was dropped or is in the sink or a spill file |
| `AuditTrail.AuditLogger.RunBatchWorker` | internal/audit/batch.go:83-148 | over any events, with callers logging also inside a flush or replay, every entry logged stays accounted for, and a tick leaves no batch waiting |
| `AuditTrail.AuditLogger.Flush` | internal/audit/batch.go:104-120 | a batch whose insert is reported done is written, else spilled if the file can be written, else dropped, and always as a whole |
| `AuditTrail.AuditLogger.Enqueue` | internal/audit/batch.go:68-81 | an entry is queued if there is room, else spilled or dropped, and dropped once stopped |
| `AuditTrail.AuditLogger.Log` | internal/audit/logger.go:144-163 | a sealed entry is queued, else spilled or dropped as the file allows; one that cannot be sealed is dropped, counted and put nowhere |
| `AuditTrail.AuditLogger.SpillOrDrop` | internal/audit/batch.go:150-163 | the entries go to one file or are all counted dropped |
| `AuditTrail.AuditLogger.Replay` | internal/audit/spill.go:104-140 | an entry leaves the spill files only once it is in the sink |
| `AuditTrail.AuditLogger.InsertBatch` | internal/storage/postgres.go:380-471 | inserts all of a batch or none, changes nothing when all is there, and a reported success has committed |
| `AuditTrail.CountsConserved` | internal/audit/batch.go:170-180 | logged equals written, spilled, dropped, queued and in batch |
| `Encoding.FieldsCancel` | internal/security/canonical_encoding.go:17-34 | field lists of one shape with equal bytes are equal, whatever follows |
| `Encoding.FieldCancels` | internal/security/canonical_encoding.go:17-34 | one field and the rest are recovered from equal bytes |
| `Encoding.HexInjective` | internal/security/canonical_encoding.go:36-45 | lowercase hexadecimal is determined by its bytes |
| `Encoding.HexRoundTrip` | internal/security/canonical_encoding.go:36-45 | bytes written in lowercase hexadecimal are read back |
| `Encoding.HexIsRead` | internal/security/canonical_encoding.go:36-45 | what is read is exactly pairs of lowercase digits, and writing it gives the text back |
| `Encoding.EncodedReads` | internal/security/canonical_encoding.go:17-34 | the bytes of a field read back, most significant first, as its length, text, number or count |
| `Encoding.Buffer.WriteString` | internal/security/canonical_encoding.go:17-22 | appends a length and the text |
| `Encoding.Buffer.WriteInt64` | internal/security/canonical_encoding.go:24-28 | appends eight bytes in two's complement |
| `CanonicalIntent.IntentInjective` | internal/security/canonical_business_intent.go:160-193 | equal canonical bytes come from equal valid intents |
| `CanonicalIntent.CanonicalBytes` | internal/security/canonical_business_intent.go:160-193 | writes every field of a valid intent once in order, and refuses an invalid one |
| `CanonicalIntent.ValidateFields` | internal/security/canonical_business_intent.go:65-118 | the checks accept exactly the intents with valid fields |
| `CanonicalIntent.ComputeStateWitness` | internal/security/canonical_business_intent.go:138-158 | writes the material state field by field and hashes it |
| `CanonicalIntent.WitnessIsState` | internal/security/canonical_business_intent.go:138-158 | valid intents have equal witnesses if and only if their material state is equal, wherever the hash does not collide |
| `CanonicalIntent.CapabilityInjective` | internal/security/approval_capability.go:164-239 | equal capability bytes come from equal valid capabilities |
| `CanonicalIntent.IssuedVerifies` | internal/security/approval_capability.go:91-162 | an issued envelope verifies for the issued capability alone, exactly within its window, which ends at the delegation's end or after the signer's time, whichever is first; the other fields are the caller's |
| `CanonicalIntent.VerifiesIffIssued` | internal/security/approval_capability.go:128-162 | an envelope verifies for a capability if and only if some issue under a held key yields that pair, within its window |
| `CanonicalIntent.ValidateCapability` | internal/security/approval_capability.go:197-239 | accepts exactly the valid capabilities, whose approver is neither delegator nor creator nor agent and whose window is at most a day |
| `CanonicalIntent.CapabilityBytes` | internal/security/approval_capability.go:164-195 | writes every field of a valid capability once in order, and refuses others |
| `CanonicalIntent.ProofInjective` | internal/security/delegation_proof.go:91-116 | equal V1 payloads have one key and one tuple, for texts within 32-bit length |
| `CanonicalIntent.ProofBytes` | internal/security/delegation_proof.go:91-111 | writes version, key and tuple field by field |
| `CanonicalIntent.ProofV2Injective` | internal/security/delegation_proof_v2.go:53-71 | equal V2 payloads have one key, window and intent hash, and one intent without a hash collision |
| `CanonicalIntent.ProofV2Bytes` | internal/security/delegation_proof_v2.go:53-71 | writes key, intent hash, grant, agent and window, and refuses an invalid intent or window |
| `CanonicalIntent.ProofVersionsSeparated` | internal/security/delegation_proof_v2.go:14-17 | no V1 payload equals a V2 payload although one domain tag begins the other |
| `OrderLines.LineOrderFree` | internal/security/canonical_purchase_order_lines.go:38-64 | the same lines in any order, sorted in any way, give the same result |
| `OrderLines.TaxOrderFree` | internal/security/canonical_purchase_order_lines.go:122-128 | lines that also differ in tax order give the same result |
| `OrderLines.PermutedTaxesTidy` | internal/security/canonical_purchase_order_lines.go:122-123 | permuted taxes sort alike |
| `OrderLines.BytesDetermineLines` | internal/security/canonical_purchase_order_lines.go:75-140 | equal bytes force equal lines up to line order, tax order and description normalisation |
| `OrderLines.EncodersAgree` | custom_addons/pdp_authorizer/cbi_lines.py:30-92 | the two encoders give the same bytes wherever both succeed |
| `OrderLines.CanonicalLinesBytes` | internal/security/canonical_purchase_order_lines.go:38-64 | the Go encoder sorts, refuses duplicates and invalid lines, and encodes the rest |
| `OrderLines.WriteLine` | internal/security/canonical_purchase_order_lines.go:75-95 | writes the canonical form of a valid line and refuses others |
| `OrderLines.ValidateLine` | internal/security/canonical_purchase_order_lines.go:97-140 | accepts exactly the valid lines |
| `OrderLines.CheckTaxes` | internal/security/canonical_purchase_order_lines.go:124-128 | comparing neighbours of sorted taxes finds every duplicate |
| `OrderLines.CanonicalLinesBytesPython` | custom_addons/pdp_authorizer/cbi_lines.py:30-46 | the Python encoder meets the same specification |
| `OrderLines.LineBytes` | custom_addons/pdp_authorizer/cbi_lines.py:53-92 | one line's bytes, or a refusal exactly for an invalid line |
| `OrderLines.UniqueBySize` | custom_addons/pdp_authorizer/cbi_lines.py:130-136 | the size of the tax set tells duplicates |
| `Money.MinorRoundTrip` | custom_addons/pdp_authorizer/cbi_protocol.py:50-73 | minor units to text and back is the identity at every scale |
| `Money.TextRoundTrip` | custom_addons/pdp_authorizer/cbi_protocol.py:129-137 | canonical text that is accepted comes back unchanged if and only if it has at most 28 digits |
| `Money.OnlyAmountsRead` | custom_addons/pdp_authorizer/cbi_protocol.py:43-63 | whatever is read as an amount is a whole part, alone or before a point and digits |
| `Money.RoundingAccepts` | custom_addons/pdp_authorizer/cbi_protocol.py:67-69 | 1 and 29 places ending in 1 is accepted as 100 cents |
| `Money.RenderedIsCanonical` | custom_addons/pdp_authorizer/cbi_protocol.py:129-137 | rendered text has no leading or trailing zeros to spare |
| `Money.CanonicalMajorAmount` | internal/server/delegation_auth_v2.go:164-178 | dividing gives the same text as slicing digits |
| `Money.PowerLoop` | internal/server/delegation_auth_v2.go:168-171 | the factor is the power of ten and at most a million, so nothing wraps |
| `Money.PaddedSplit` | custom_addons/pdp_authorizer/cbi_protocol.py:135-136 | the padded digits are those of the quotient and then of the remainder |
| `Money.TooFine` | custom_addons/pdp_authorizer/cbi_protocol.py:67-69 | text with more places than the scale and at most 28 digits is refused |
| `Money.NearestEven` | custom_addons/pdp_authorizer/cbi_protocol.py:67-69 | rounding goes to the nearest unit and from the middle to the even one |

## Left out

- CommitSafety.ApprovedIntentBinding: agreement with the current lines is stated for executions that began beside no editor from before the delegation, because the others can execute with a line they did not sign.
- BindingExactness.BindingExact: the only-if half is about confirmations whose rows nobody holds, since one that cannot execute proves nothing.
- EngineAgreement.SameRevisionSameDecision: the explanation may name different policies, since it is the first found in each engine's order.
- CommitSafety.ConsumedOnlyByExecution: the final order state is stated for the approved route, since the direct route does not check what the native confirmation leaves.
- RevocationFeed.ReadyCovers: stated while the connection is alive, because a lost connection is noticed only later, and for revocations that neither clock finds expired, because the query goes by the database's clock.
- CanonicalIntent.ProofInjective: stated for texts under 2^32 bytes, since a longer length is cut to 32 bits.
- OrderLines.BytesDetermineLines: for the Go encoder, stated for quantities, prices and tax lists under 2^32, which it does not check.
- Money.TooFine: stated for at most 28 digits, because longer texts are rounded before they are checked.
- PolicyTrie.CollisionSkips: whether some action hashes like `any` under FNV-1a is not settled here.
- AuditTrail.AuditLogger.Stop: stated for a running worker; a worker whose parent context ended earlier no longer drains.
- Updating syntax trees and index nodes in place: trees and nodes are values here, so sharing between snapshots is not captured.
- `SimulateDecision`, auto-incremented revisions and revision 0 updates.
- The lexer, error texts and source positions.
- Required-attribute lists, obligation limits and metrics.
- The Python encoder of intents, which writes the fields in the Go order.
- Who may approve: the approver's groups, company and own PDP decision at issuance.
- Recovery of a fence after a crashed publication, for which there is no code.
- Spill file formats, quotas and encryption: a spill succeeds or fails as a whole.
- gRPC, HTTP, JWT, mTLS, Badger, S3, the replay buffer, the command line tool and document generators.
