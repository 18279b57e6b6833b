# Control-plane request layer: a verified model

This project models, in Dafny, the stateful and algorithmic core of the control plane's HTTP
layer and proves what it promises. HTTP itself, tokens and schemas are left outside; every
store is an explicit state, and what a store or a foreign resolver answers is an arbitrary
input unless a statement says otherwise.

| area | files |
|---|---|
| shadow evidence: an aggregate-and-flush buffer under concurrent adds and flushes | `ShadowEvidence.dfy`, `ShadowRuns.dfy`, `AdminEvidence.dfy` |
| registration rate limiter | `RateLimiter.dfy` |
| organisation directory: filter, sort, cursor, pages | `DirectoryPaging.dfy`, with `Sorting.dfy`, `Text.dfy` |
| canonical payment instruction, strict JSON, entity tags, UTF-8 truncation | `InstructionEncoding.dfy`, `StrictJson.dfy`, `EntityTags.dfy`, `Utf8Truncation.dfy`, with `Decimal.dfy` |
| tenant provisioning: plan, decide, apply, replan, withdraw, remediate, retry, the executor beside them, and the context authority it gives | `Provisioning.dfy`, `ProvisioningCommands.dfy`, `ProvisioningAnswers.dfy`, `ProvisioningRuns.dfy`, `ProvisioningSafety.dfy`, `ProvisioningOperations.dfy`, `ProvisioningAuthority.dfy` |
| creation under an idempotency key | `IdempotentCreate.dfy` |
| payments, trade and ERP authority decisions | `OperationCatalogues.dfy`, `AuthorityDecisions.dfy` |
| estate selectors, attestation windows and provenance | `Selection.dfy`, `EstateSelection.dfy`, `Attestation.dfy`, `Provenance.dfy` |
| approval validity over delegations, context ownership, roles and grants | `ApprovalValidity.dfy`, `ContextOwnership.dfy`, `AdminVerdict.dfy` |

`Common.dfy` holds what several of them share.

Code that changes state step by step is a class with methods or a method with loops, tied by
its postcondition to a specification; protocols are state machines over their atomic steps,
and their theorems hold for every run. `dafny verify dfyconfig.toml` checks everything.

## What the model found

- A flush's put-back is documented to lose nothing (`api/shadow_evidence.go:86-88`). It loses
  nothing exactly when the pending keys and the batch's keys together fit the capacity
  (`ShadowRuns.PutBackLossless`); otherwise it discards without counting, in a run that
  `ShadowRuns.FullPutBackDiscards` gives. The conservation law therefore has a term for it.
- The sliding bound of the limiter needs no call to be stamped before the window it meets
  (`RateLimiter.BackwardClockBreaksBound`); inside a window calls may come in any order, as
  they can when the clock is read before the lock. It degrades by one limit for each window a
  call may be late (`RateLimiter.LateBound`), and is attained
  (`RateLimiter.EdgeBurst`, `RateLimiter.LateBurst`).
- An apply compares the If-Match revision with the stored one, not with the one it read. It
  carries the plan it read, so the current one exactly when no replan committed since
  (`ProvisioningSafety.CarriesCurrentExactlyWhen`): always at the revision it read
  (`ProvisioningSafety.AcceptedCarriesCurrent`), not always with an If-Match ahead of it
  (`ProvisioningSafety.AheadCarriesSuperseded`), and in either case one that was approved
  (`ProvisioningRuns.AlwaysSound`).
- CANCELLED is not always final. `ProvisioningSafety.LeavesCancelledExactlyWhen` says which
  steps leave it: the executor's second, unguarded write after it recorded a cancellation
  (`ProvisioningSafety.WithdrawalRevived`), cancelling an operation that a retry queued on the
  withdrawn provisioning, or finishing such a cancellation once abandoned
  (`ProvisioningSafety.CancelRevives`), and a replan or remediation whose If-Match is
  ahead of what it read (`ProvisioningSafety.ReplanRevives`). While commands commit at the
  revision they read, it is final exactly when no such write is owed
  (`ProvisioningSafety.WithdrawalIsFinal`).
- A retry can queue an operation on a withdrawn provisioning. It checks what it read and only
  if it read the operation retryable (`ProvisioningSafety.RetryQueuesExactlyWhen`), so it does
  when it read the provisioning before the withdrawal
  (`ProvisioningSafety.RetryAfterWithdrawal`) or the operation while it still ran
  (`ProvisioningSafety.UncheckedRetryAfterWithdrawal`).
- Two operations of one provisioning can be in progress at once. Every other command looks for
  one in its transaction; a retry's does not. There is never more than one exactly when no
  retry queues beside another (`ProvisioningOperations.OneAtATimeExactlyWhen`), and
  `ProvisioningOperations.RetryBesideRemediation` is a run in which one does.
- A decision on a posting is disclosed with its capability and recorded without it. The two
  agree entirely exactly when the class has no capability or the context was not usable
  (`AuthorityDecisions.PostingLedger.ResolvePosting`); every class of the pinned catalogue has
  none today.
- A commerce attestation may rest on a client-binding attestation that is no longer in force:
  the provenance query asks when it was resolved, not until when its evidence lasted
  (`Provenance.ExpiredBindingProves`). It is in force exactly when that evidence outlasts the
  request (`Provenance.ProvenInForceExactlyWhen`).
- A context of no tenant may be redeemed by a caller of any tenant
  (`ContextOwnership.RedeemedIsOwned` says what is guaranteed), and a failed identity lookup
  is the one answer that tells an unowned context from an absent one
  (`ContextOwnership.UnownedLooksAbsent`).

## Model

| member | source | states |
|---|---|---|
| ShadowEvidence.Recorder.Add | api/shadow_evidence.go:57-85 | one comparison is merged into its key's observation, admitted as a new key below capacity, or counted as dropped; nothing else changes |
| ShadowEvidence.Recorder.Take | api/shadow_evidence.go:93-99 | the swap hands over every pending observation once and leaves nothing pending |
| ShadowEvidence.Recorder.PutBack | api/shadow_evidence.go:104-120 | a failed batch is merged back, and what does not fit is dropped without being counted |
| ShadowEvidence.Recorder.Flush | api/shadow_evidence.go:89-124 | a whole flush succeeds if and only if there is nothing to write or the store takes it; it moves everything to the store or changes nothing |
| ShadowEvidence.PutBackRestores | api/shadow_evidence.go:104-120 | putting a batch back on an empty buffer restores exactly what was taken |
| ShadowRuns.AlwaysSound | api/shadow_evidence.go:57-124 | in every interleaving each observation counts its contributing times and carries their minimum and maximum, and pending never exceeds 20000 keys |
| ShadowRuns.Conservation | api/shadow_evidence.go:57-124 | in every interleaving, for every key and time: accepted equals pending plus in flight plus stored plus dropped plus discarded |
| ShadowRuns.DecisionsConserved | api/shadow_evidence.go:57-124 | the same law for the decision counts themselves, with the dropped counter |
| ShadowRuns.NothingLost | api/shadow_evidence.go:65-85 | a run that ever sees at most 20000 keys drops and discards nothing, however often the store fails |
| ShadowRuns.EvidenceComplete | api/shadow_evidence.go:103-122 | once nothing is pending or in flight in such a run, each stored row counts every accepted comparison of its key with their exact first and last time |
| ShadowRuns.WithinItsDay | api/shadow_evidence.go:65-85 | the first and last time of every observation, pending, in flight or stored, lie in its key's UTC day and were accepted for it |
| ShadowRuns.PutBackLossless | api/shadow_evidence.go:103-122 | a put-back discards nothing if and only if pending and batch keys together fit the capacity |
| ShadowRuns.FullPutBackDiscards | api/shadow_evidence.go:104-119 | a run of the recorder that ends with an accepted comparison pending, in flight and stored nowhere and the dropped counter at zero |
| AdminEvidence.RecordsExactlyComparisons | api/shadow_evidence.go:50-64 | the recorder accepts exactly the labels of comparisons, under a permission key or the one label for none |
| AdminEvidence.VerdictIsEvidence | api/admin_shadow.go:200-237 | every comparison a verdict records counts |
| AdminEvidence.PermissionKeyExactly | internal/administration/grant.go:12-12 | a permission key is lower-case letters, digits, hyphens and at least one dot, a letter first and after every dot |
| RateLimiter.RegistrationLimiter.Allow | api/principal_resolution_handler.go:321-336 | a call is admitted if and only if every key is below the limit in the current window; a refused call changes no count |
| RateLimiter.RegistrationKeys | api/principal_resolution_handler.go:269-269 | the keys of one registration are distinct |
| RateLimiter.KeysTellApart | api/principal_resolution_handler.go:269-269 | two registrations share a key exactly where their caller, client or issuer is the same |
| RateLimiter.CountsAreAdmissions | api/principal_resolution_handler.go:304-336 | with distinct keys in each call, a key's count is the number of its admissions since the window started, whatever the clock does |
| RateLimiter.LogInWindows | api/principal_resolution_handler.go:304-336 | when no call is stamped more than d before the window it meets, every earlier admission is before the current window start and every later one at most d before it |
| RateLimiter.SlidingBound | api/principal_resolution_handler.go:304-336 | when no call is stamped before the window it meets, any half-open minute admits a key at most twice the limit |
| RateLimiter.LateBound | api/principal_resolution_handler.go:304-336 | when calls are stamped at most j windows before the one they meet, at most j + 2 times the limit |
| RateLimiter.LateBurst | api/principal_resolution_handler.go:321-336 | that bound is attained as well, for calls one window late |
| RateLimiter.MonotoneIsOrderly | api/principal_resolution_handler.go:269-269 | a clock that never runs backwards satisfies the condition |
| RateLimiter.EdgeBurst | api/principal_resolution_handler.go:321-336 | the bound is attained |
| RateLimiter.BackwardClockBreaksBound | api/principal_resolution_handler.go:321-336 | calls stamped before the window they meet exceed it |
| DirectoryPaging.FilterEntries | api/organisation_directory_page.go:88-100 | the loop keeps exactly the entries that match, in order |
| DirectoryPaging.FindCursor | api/organisation_directory_page.go:111-120 | the position after the cursor's entry, or that the cursor is not in the listing |
| DirectoryPaging.PageDirectoryEntries | api/organisation_directory_page.go:87-131 | the page is the slice of the sorted listing that the cursor asks for, or nothing for a stale cursor |
| DirectoryPaging.BeforeTotal | api/organisation_directory_page.go:101-110 | the comparator orders any two entries with different ids, strictly |
| DirectoryPaging.BeforeTransitive | api/organisation_directory_page.go:101-110 | the comparator is transitive |
| DirectoryPaging.ListingCorrect | api/organisation_directory_page.go:87-110 | the listing is the one ordered arrangement of the matching entries |
| DirectoryPaging.TraversalDelivers | api/organisation_directory_page.go:87-131 | following next_after from the start concatenates to the listing, each entry once, in the least number of pages, in either direction |
| DirectoryPaging.TraversalExists | api/organisation_directory_page.go:111-131 | such a traversal always reaches the end; no cursor it is given is stale |
| DirectoryPaging.TraversalInOrder | api/organisation_directory_page.go:101-110 | what a traversal delivers is ascending or, when asked for, descending by lower-cased name, and ascending by id among equal names |
| DirectoryPaging.PageSays | api/organisation_directory_page.go:121-131 | every page gives its size, direction and the number of matching entries; one that names a cursor is full and names its last entry |
| DirectoryPaging.CursorResumes | api/organisation_directory_page.go:111-127 | a cursor, in whatever case, is answered with what follows its entry, up to the limit |
| DirectoryPaging.StaleCursor | api/organisation_directory_page.go:111-120 | a cursor is refused if and only if no listed entry has its id, case-insensitively |
| DirectoryPaging.BoundedDirectoryIDs | api/organisation_directory_handler.go:36-59 | exactly the listed organisation ids, ascending and without repeats, or nothing if there are more than the maximum |
| DirectoryPaging.BuildCandidates | api/organisation_directory_page.go:208-227 | the loop yields an entry per listed id that has a profile, refuses if and only if a read fails or names another organisation, and what it yields satisfies what paging needs |
| DirectoryPaging.CandidatesIdentified | api/organisation_directory_page.go:208-227 | candidates of distinct canonical ids have ids that differ even up to case |
| DirectoryPaging.DirectoryPage | api/organisation_directory_page.go:179-234 | the whole request: the grants' ids, their candidates and one page of them, and what alone can refuse it |
| DirectoryPaging.AuthorisedOnce | api/organisation_directory_handler.go:36-59 | the grants determine the ids, order included |
| DirectoryPaging.UuidExactly | internal/domain/organisation_ids.go:28-32 | an id is canonical exactly when it is five groups of 8, 4, 4, 4 and 12 lower-case hexadecimal digits between hyphens |
| DirectoryPaging.DirectoryDelivers | api/organisation_directory_page.go:208-233 | from the grants to the client: the pages hold each organisation that some grant lets it view here, that has a profile and whose name, verification and status are those asked for, exactly once, in the order asked for, and no other |
| InstructionEncoding.DecodeEncode | api/payments_money_movement_authority_handler.go:166-188 | the canonical encoding has a left inverse on every instruction the schema admits |
| InstructionEncoding.FingerprintBinds | api/payments_money_movement_authority_handler.go:161-188 | with an injective hash, fingerprints are equal if and only if the instructions are, in all eleven fields |
| InstructionEncoding.EncodesLayout | api/payments_money_movement_authority_handler.go:167-183 | the encoding is the eleven named members between braces, separated by commas, null for an absent reference, and nothing more |
| InstructionEncoding.KeysAscend | api/payments_money_movement_authority_handler.go:161-166 | the names are in ascending order |
| InstructionEncoding.EscapesEach | api/payments_money_movement_authority_handler.go:161-187 | quotes and backslashes take a backslash and every other character stands for itself |
| StrictJson.Decoder.UniqueValue | api/strict_json.go:26-67 | the recursive walk over the moving decoder, as a function of its position |
| StrictJson.RejectDuplicateJSON | api/strict_json.go:15-24 | the whole check over a token stream, which always terminates |
| StrictJson.WalkValue | api/strict_json.go:26-67 | on any tree followed by any tokens, the walk consumes exactly that tree's tokens, or fails because a member repeats |
| StrictJson.AcceptedValue | api/strict_json.go:26-67 | whatever the walk accepts is the tokens of a tree without repeats |
| StrictJson.AcceptsExactlyUnique | api/strict_json.go:15-67 | a token stream passes if and only if it is one tree, with no member repeated in any object at any depth, and nothing after it |
| StrictJson.RefusesDuplicates | api/strict_json.go:15-67 | a tree that repeats a member anywhere is refused |
| EntityTags.ReadsExactlyTags | api/changeset_handler.go:366-382 | If-Match is read as revision v if and only if, trimmed, it is the tag of v and v is from 1 to 2^63-1 |
| EntityTags.TagRoundTrip | api/canonical_handler.go:241-243 | the ETag of a revision reads back as that revision, however padded |
| EntityTags.LargeNumeralRefused | api/changeset_handler.go:366-382 | a larger numeral is refused, never wrapped |
| EntityTags.RequiredExactly | api/changeset_handler.go:366-371 | If-Match is told to be required exactly when it is missing or blank |
| EntityTags.NoneMatch | api/operation_handler.go:143-153 | the nested search finds a match if and only if some listed candidate matches the tag |
| EntityTags.CandidateMatchesExactly | api/operation_handler.go:143-153 | a candidate matches a revision exactly when, trimmed, it is the star or the tag of that revision, strong or weak |
| EntityTags.ListMatches | api/operation_handler.go:143-153 | for any comma-joined list of strong or weak revision tags it holds if and only if the revision is listed |
| Utf8Truncation.Truncate | api/provisioning_evidence.go:261-269 | on valid text, the longest valid prefix within the bound, at most three bytes short of it |
| Utf8Truncation.ExplainReason | api/capability_explain_handler.go:97-106 | the same function at its own bound |
| Utf8Truncation.TruncatedIsLongest | api/provisioning_evidence.go:261-269 | stepping back to a character start is the longest valid prefix |
| Utf8Truncation.Boundary | api/provisioning_evidence.go:261-269 | a prefix of valid text is valid if and only if a character starts where it ends |
| Utf8Truncation.ValidExactly | api/provisioning_evidence.go:261-269 | text is valid exactly when it encodes a sequence of Unicode scalar values |
| ProvisioningCommands.Store.Approve | api/provisioning_convergence_handler.go:405-480 | the decision command is the approving step: its guards over the record read, then compare-and-set with one decision per plan |
| ProvisioningCommands.Store.Accept | internal/repository/postgres_convergence.go:474-538 | the accepting transaction: replay by key, revision, no operation in progress, insert, bump |
| ProvisioningCommands.Store.Apply | api/provisioning_convergence_handler.go:485-552 | apply is the applying step |
| ProvisioningCommands.Store.Remediate | api/provisioning_lifecycle_handler.go:161-218 | remediate is the remedying step |
| ProvisioningCommands.Store.Supersede | internal/repository/postgres_provisioning_commands.go:29-78 | the replanning transaction: revision, no operation in progress, unique plan id, version and key |
| ProvisioningCommands.Store.Replan | api/provisioning_lifecycle_handler.go:48-125 | replan is the replanning step, replays included |
| ProvisioningCommands.Store.Withdraw | api/provisioning_lifecycle_handler.go:128-157 | withdraw is the withdrawing step |
| ProvisioningCommands.Store.Retry | api/provisioning_lifecycle_handler.go:287-330 | retry is the retrying step; its transaction compares no revision |
| ProvisioningAnswers.DecisionAnswered | api/provisioning_convergence_handler.go:405-480 | a decision is refused for the first objection, to what was read and then by the store, and otherwise recorded for the plan read; nothing else changes |
| ProvisioningAnswers.ApplyAnswered | api/provisioning_convergence_handler.go:485-552 | an apply is answered with its key's operation, refused for the first objection, or queues one operation for the plan and approval read |
| ProvisioningAnswers.RemediationAnswered | api/provisioning_lifecycle_handler.go:161-218 | so is a remediation, which moves the state as well |
| ProvisioningAnswers.ReplanAnswered | api/provisioning_lifecycle_handler.go:48-125 | a replan is answered as before under a key that made a plan, refused for the first objection, or adds the next version |
| ProvisioningAnswers.WithdrawalAnswered | api/provisioning_lifecycle_handler.go:128-157 | a withdrawal is refused for the first objection or cancels |
| ProvisioningAnswers.RetryAnswered | api/provisioning_lifecycle_handler.go:287-330 | a retry is refused for the first objection, answered with the attempt its key queued, or queues the next attempt |
| ProvisioningAnswers.CancellationAnswered | internal/repository/postgres_provisioning_commands.go:144-171 | a cancellation ends a queued operation and blocks its provisioning, asks a running one to stop, and is refused of one that ended |
| ProvisioningAnswers.FreshWhenTaken | api/provisioning_convergence_handler.go:163-181 | whatever a command that judges staleness changes, the plan it read had not expired and was what planning yielded then |
| ProvisioningAnswers.StaleExactlyWhen | api/provisioning_convergence_handler.go:163-181 | one that passes every other guard is refused as stale if and only if the plan expired or planning yields other material |
| ProvisioningRuns.StepIsLater | internal/repository/postgres_convergence.go:391-411 | every step of every party keeps what is recorded, and one that changes a plan, decision or status raises the revision |
| ProvisioningRuns.SeenIsEarlier | internal/repository/postgres_convergence.go:391-411 | two records of a run at one revision have the same plans, decisions and status, and the same state up to the one move that leaves the revision alone |
| ProvisioningRuns.PipelineStepBookkeeping | internal/repository/approved_plan.go:50-70 | the executor's and pipeline's writes touch no plan, decision or key |
| ProvisioningRuns.AlwaysSound | api/provisioning_convergence_handler.go:405-552 | in every run, whatever was read and whatever If-Match given: plan versions are 1, 2, 3, ..., no decision is the creator's, and every operation carries a blocker-free plan with an APPROVED decision for its digest |
| ProvisioningSafety.AcceptedCarriesCurrent | api/provisioning_convergence_handler.go:516-536 | an apply or remediation accepted at the revision it read carries the current plan, unblocked, not stale, approved by someone other than the creator |
| ProvisioningSafety.CarriesCurrentExactlyWhen | api/provisioning_convergence_handler.go:498-536 | whatever If-Match was given, an accepted operation carries the plan that was read, and so the current one if and only if no replan committed since |
| ProvisioningSafety.AheadCarriesSuperseded | api/provisioning_convergence_handler.go:485-552 | a run in which an If-Match ahead of what was read makes it carry a superseded plan |
| ProvisioningSafety.ActiveAlwaysCurrent | internal/repository/postgres_provisioning_commands.go:250-261 | while commands commit at the revision they read, every operation in progress, retried ones included, carries the current plan |
| ProvisioningSafety.ReplanIsUndecided | api/provisioning_lifecycle_handler.go:73-99 | whatever its If-Match, a replan raises the plan version by one and its plan has no decision |
| ProvisioningSafety.UndecidedAdmitsNothing | api/provisioning_convergence_handler.go:516-525 | read with an undecided plan, no apply or remediation queues anything |
| ProvisioningSafety.KeyReplays | internal/repository/postgres_convergence.go:463-494 | once a key created an operation no later request under it queues anything, even one that read the record before; it is answered with that operation if and only if it hashes the same, current plan digest included, and its later lookup found the key or what it read passes the guards |
| ProvisioningSafety.WithdrawnIsFrozen | api/provisioning_lifecycle_handler.go:128-157 | in step, no command, executor or pipeline step changes a withdrawn provisioning that is owed no block |
| ProvisioningSafety.WithdrawalIsFinal | internal/provisioning/apply/executor.go:57-90 | CANCELLED stays so under every continuation in step if and only if no executor owes the provisioning a block |
| ProvisioningSafety.LeavesCancelledExactlyWhen | internal/repository/postgres_provisioning_commands.go:148-216 | with no assumption on revisions or operations in progress, exactly which steps take a provisioning out of CANCELLED: an owed block, the end of an operation's cancellation, or a replan or remediation with an If-Match ahead of what it read |
| ProvisioningSafety.CancelRevives | internal/repository/postgres_provisioning_commands.go:210-215 | a run whose cancelled retry does, with no block owed, replan or remediation |
| ProvisioningSafety.ReplanRevives | api/provisioning_lifecycle_handler.go:48-108 | a run whose replan does, with no block owed |
| ProvisioningSafety.WithdrawalRevived | internal/provisioning/apply/executor.go:70-84 | a run with every command in step that withdraws and is blocked afterwards |
| ProvisioningSafety.RetryQueuesExactlyWhen | api/provisioning_lifecycle_handler.go:304-329 | in any run a retriable operation is queued again if and only if it was read not retryable, or the provisioning was read FAILED or BLOCKED, not stale, on its plan; the state at the commit plays no part |
| ProvisioningSafety.RetryAfterWithdrawal | internal/repository/postgres_provisioning_commands.go:115-142 | so a retry that read before a withdrawal queues on a CANCELLED provisioning |
| ProvisioningSafety.UncheckedRetryAfterWithdrawal | api/provisioning_lifecycle_handler.go:304-304 | and so does one that read the operation while it ran, though it read the provisioning CANCELLED |
| ProvisioningOperations.OperationMoves | internal/repository/postgres_operations.go:66-126 | what any step does to an operation: claimed, resumed as another attempt, asked to stop, ended, queued again by a retry, or nothing, and only by a step that names it |
| ProvisioningOperations.EndedIsFinal | internal/repository/postgres_operations.go:95-126 | in any run, an operation that ended and cannot be retried never changes again |
| ProvisioningOperations.CompletesOnce | internal/repository/postgres_operations.go:86-126 | in any run, of one attempt a completion takes effect at most once, and none does once the operation was resumed as another attempt |
| ProvisioningOperations.NowPast | internal/repository/postgres_operations.go:66-126 | a completion that takes effect, and a resumption, put the attempt in the past |
| ProvisioningOperations.SecondExactlyWhen | internal/repository/postgres_provisioning_commands.go:115-142 | a step brings a second operation into progress if and only if it is a retry that queues beside another |
| ProvisioningOperations.OneAtATimeExactlyWhen | internal/repository/postgres_provisioning_commands.go:115-142 | in a run never more than one operation is in progress if and only if no retry ever queued beside another |
| ProvisioningOperations.RetryBesideRemediation | internal/repository/postgres_provisioning_commands.go:115-142 | a run in which a remediation accepted between a retry's reads and its transaction leaves two in progress |
| ProvisioningOperations.StatusMoves | internal/repository/postgres.go:2202-2264 | in any run the status changes along the pipeline's moves or by a withdrawal, and the state shows the new one |
| ProvisioningOperations.AdvancesExactlyWhen | internal/repository/postgres.go:2202-2264 | the pipeline's write takes effect if and only if nothing was committed since its read and it moves the status on or saves one under way; saving leaves the state alone |
| ProvisioningOperations.ReachedInTurn | internal/repository/postgres.go:2202-2264 | ACTIVE is reached only after READY, that only after RECONCILE, and that only after APPLY |
| ProvisioningOperations.BlocksAreOwed | internal/provisioning/apply/executor.go:70-84 | in any run, every block the executor came to owe was written once or is still owed |
| ProvisioningOperations.RevisionByOne | internal/repository/postgres_convergence.go:391-411 | a commit raises the revision by at most one |
| ProvisioningOperations.QuietMoveExactly | internal/repository/approved_plan.go:50-70 | exactly one move of the state leaves the revision alone: into provider provisioning, from a phase before it |
| ProvisioningOperations.RemediatingIsStranded | internal/repository/postgres_convergence.go:589-600 | no command gets past what it read of a provisioning in REMEDIATING |
| ProvisioningOperations.FailureReleases | internal/repository/postgres_convergence.go:589-600 | so a failure the pipeline did not record takes it out, to FAILED if retryable and to BLOCKED if not, where with nothing in progress it can be replanned or withdrawn; anywhere else it changes nothing |
| ProvisioningAuthority.AuthorityIsApproved | api/provisioning_context_authority.go:49-85 | a context judged current names the current plan, free of blockers and approved by someone other than the creator |
| ProvisioningAuthority.AuthorityLastsExactlyWhile | api/provisioning_context_authority.go:65-84 | a context once current is current at a later point of any run if and only if no replan committed since and the provisioning is in an admissible state then |
| ProvisioningAuthority.WithdrawalEndsAuthority | api/provisioning_context_authority.go:68-70 | after a withdrawal owed no block, commands in step never make any context current again |
| IdempotentCreate.Repository.Resume | api/changeset_handler.go:134-179 | a handler's next call to the store is the protocol's step, under any failure of that call |
| IdempotentCreate.AlwaysSound | api/market_handler.go:100-131 | in every interleaving rows are unique in scope and identifier and every answer given is true of them |
| IdempotentCreate.SameObjectExactlyWhen | api/changeset_handler.go:134-169 | two successes name one object if and only if their requests share the key, and the principal where keys belong to principals; it is then for one hash |
| IdempotentCreate.AnswersHaveCause | api/changeset_handler.go:134-169 | a success names an identifier that a request sharing the key arrived with, for its hash; a conflict means one arrived with another hash |
| IdempotentCreate.AgreeOnOneObject | api/provider_migration_handler.go:100-148 | beside a success, every other answer under the key is the same object for the same hash, a conflict for another, or a failure |
| IdempotentCreate.EachCallProgresses | api/changeset_handler.go:134-169 | a request is answered within three calls of its own, and a key found taken is always found again |
| IdempotentCreate.FailuresAreTold | api/changeset_handler.go:134-169 | a call that fails is answered as a failure; an insert that takes effect adds its row exactly when neither its key nor its identifier is taken |
| IdempotentCreate.LostReplyRecovered | api/changeset_handler.go:136-142 | an insert that took effect and was reported failed is what the next request sharing the key is answered with, or a conflict for another hash |
| OperationCatalogues.Load | api/payments_money_movement_authority_handler.go:125-159 | a catalogue loads if and only if it has entries, all valid and of distinct classes, and then holds exactly them |
| OperationCatalogues.LoadTrade | api/trade_order_authority_handler.go:120-154 | the same, and activities are distinct |
| OperationCatalogues.PaymentsEntryExactly | api/payments_money_movement_authority_handler.go:141-150 | a payments entry is activatable with both role and capability named, or not and with neither |
| OperationCatalogues.ErpEntryExactly | api/erp_posting_authority_handler.go:116-122 | an ERP entry names its class, role and activity |
| AuthorityDecisions.Grant | api/payments_money_movement_authority_handler.go:316-341 | AUTHORIZED if and only if the mandate is complete, the binding's entity's, and every bound is ahead; otherwise the first of these that fails names the outcome; the expiry is the least bound; mandate, entity, evidence and expiry are present exactly then |
| AuthorityDecisions.Ledger.Respond | api/payments_money_movement_authority_handler.go:348-383 | a payment or order decision is disclosed only after it was recorded with the same content |
| AuthorityDecisions.Ledger.ResolvePayment | api/payments_money_movement_authority_handler.go:227-344 | AUTHORIZED is disclosed if and only if every check passes, and any other outcome names the first that does not; the scope is the context's and the catalogue's once the context is usable and empty before; every recorded decision is complete and lasts at most 30 s; a class not activated is refused before anything is read |
| AuthorityDecisions.Ledger.ResolveOrder | api/trade_order_authority_handler.go:195-329 | the same with the seller binding's checks, its legal entity and its end |
| AuthorityDecisions.BindingRefusal | api/trade_order_authority_handler.go:255-284 | no refusal if and only if the stored binding is in effect and fits context, engine, currency and configuration; otherwise the first of these that does not |
| AuthorityDecisions.PostingLedger.Respond | api/erp_posting_authority_handler.go:279-314 | a posting's decision is disclosed only after it was recorded with the same content, the capability apart |
| AuthorityDecisions.PostingLedger.ResolvePosting | api/erp_posting_authority_handler.go:171-273 | the same for postings; record and disclosure agree entirely if and only if the context was not usable or the class has no capability |
| AuthorityDecisions.RecallForgetsCapability | internal/store/postgres/erp_posting_authority.go:16-40 | a posting's record gives back every field but the capability |
| AuthorityDecisions.PaymentBindsOneInstruction | api/payments_money_movement_authority_handler.go:281-293 | an AUTHORIZED payment in the ledger is bound to exactly one instruction, which echoes the decision's scope |
| AuthorityDecisions.OneFingerprintOneScope | api/payments_money_movement_authority_handler.go:281-293 | two payments authorised under one fingerprint have one tenant, organisation, market, class and reference |
| Selection.Select | api/estate_resource_assignment_handler.go:127-165 | the staged loop reaches the verdict that its meaning determines |
| Selection.MeansOne | api/estate_resource_assignment_handler.go:127-165 | a verdict is determined by its meaning, so any two selectors over the same stages agree |
| Selection.AttestsExactlyOne | api/estate_client_binding_handler.go:106-135 | a record is attested if and only if exactly one candidate satisfies all stages, and it is that one |
| Selection.OrderImmaterial | api/estate_client_binding_handler.go:103-135 | outcome, count and chosen record are the same for every order of the candidates |
| EstateSelection.SelectBinding | api/estate_client_binding_handler.go:106-146 | the chain of filters reaches that verdict, and the denial names the first stage that empties |
| EstateSelection.SelectProfile | api/estate_commerce_profile_handler.go:97-132 | the same for commerce profiles |
| EstateSelection.SelectAssignment | api/estate_resource_assignment_handler.go:127-165 | the same for assignments |
| EstateSelection.ResolveSeller | api/trade_seller_binding_resolve_handler.go:75-98 | the one-pass form reaches the verdict of staged narrowing |
| EstateSelection.BindingStagesMean | api/estate_client_binding_handler.go:106-146 | what each stage asks of a binding, field by field, and which denial it stands for |
| EstateSelection.ProfileStagesMean | api/estate_commerce_profile_handler.go:97-132 | the same for commerce profiles |
| EstateSelection.AssignmentStagesMean | api/estate_resource_assignment_handler.go:127-165 | the same for assignments |
| EstateSelection.SellerStagesMean | api/trade_seller_binding_resolve_handler.go:75-98 | the same for seller bindings |
| Attestation.BindingWindow | api/estate_client_binding_handler.go:243-256 | issued <= now < expires <= now + 60 s, within every bound to the whole second; refused if and only if a bound ends within the current second |
| Attestation.ProfileWindow | api/estate_commerce_profile_handler.go:223-233 | the same within the profile's effective end |
| Attestation.AssignmentWindow | api/estate_resource_assignment_handler.go:277-289 | the same within the assignment's end and the evidence's expiry |
| Attestation.ProperIsOne | api/estate_client_binding_handler.go:251-252 | a proper window is unique: neither end could be another whole second |
| Attestation.InForceExactlyWhen | api/estate_client_binding_handler.go:243-256 | an attestation is in force at a later time if and only if its bounds and its longest life lie past that time's second |
| Provenance.Store.ResolveBinding | api/estate_client_binding_handler.go:225-274 | disclosed if and only if the deployment matches, one binding satisfies every stage, the evidence lasts and the record was written; the record comes first, and a denial is recorded when it can be |
| Provenance.Store.ResolveAssignment | api/estate_resource_assignment_handler.go:270-315 | disclosed if and only if one assignment satisfies every stage, it and the evidence last and the record was written |
| Provenance.Store.ResolveCommerce | api/estate_commerce_profile_handler.go:193-258 | disclosed if and only if the caller holds an ATTESTED resolution, of the last minute and of a binding of this estate and engine ACTIVE at its revision, or unexpired and of an assignment likewise, one profile of the estate satisfies every stage and lasts and the record was written; every commerce attestation ever recorded rests on a recorded ATTESTED resolution of the same caller, and expires at most 120 s after it |
| Provenance.ProvenExactly | internal/store/postgres/estate_commerce_profile.go:84-97 | what the provenance query asks, as the records and the binding or assignment it must find |
| Provenance.ProvenInForceExactlyWhen | internal/store/postgres/estate_commerce_profile.go:84-94 | a binding attestation that proves provenance is still in force if and only if its evidence and its own longest life outlast the second of the request |
| Provenance.ExpiredBindingProves | internal/store/postgres/estate_commerce_profile.go:84-94 | for any binding and profile that fit, an attestation on evidence since spent still proves it |
| ApprovalValidity.WalkChain | api/federation_governance_authority_handler.go:455-468 | the hop-bounded walk succeeds if and only if the chain ends within three delegations, and lowers to the least expiry on it |
| ApprovalValidity.ApprovalValidUntil | api/federation_governance_authority_handler.go:420-471 | a validity is found if and only if every matched grant resolves with its freshness known and every bound is ahead; it is then the least of all bounds |
| ApprovalValidity.ValidityIgnoresOrder | api/federation_governance_authority_handler.go:435-468 | repeating or reordering matched grants changes nothing |
| ApprovalValidity.ValidityBounded | api/federation_governance_authority_handler.go:435-470 | it is after now and never beyond the token or any bound of a matched grant |
| ApprovalValidity.CycleRefused | api/federation_governance_authority_handler.go:455-468 | a grant that derives from itself is refused, whatever the hop bound |
| ContextOwnership.RedeemedIsOwned | api/capability_resolve_handler.go:92-130 | a context is redeemed if and only if it is runtime, the caller's own and tenant-consistent |
| ContextOwnership.RedemptionRefused | api/capability_resolve_handler.go:92-130 | otherwise the answer is unavailable, of another tenant, or as for no context, and exactly when each |
| ContextOwnership.UnownedLooksAbsent | api/provisioning_context_authority.go:95-104 | the answer equals that for an absent context if and only if the store is silent, the context is not runtime or the caller is known not to own it |
| ContextOwnership.RedeemersCannotTell | api/context_ownership.go:44-56 | two worlds that differ in any number of contexts the caller may not see give it the same answer for every identifier |
| ContextOwnership.ValidatorsCannotTell | api/platform_context_validate_handler.go:143-171 | the same for the whole validation response |
| ContextOwnership.ValidationHidesUnowned | api/platform_context_validate_handler.go:143-171 | the validator's whole response equals that for an absent context exactly in the cases listed there |
| ContextOwnership.ValidatedIsAuthority | api/platform_context_validate_handler.go:172-219 | a context is disclosed if and only if it is bounded, its owner's, of its tenant, that tenant is in a state its purpose admits, and for provisioning the workload is registered and the authority stands; the body is the stored context field by field |
| ContextOwnership.UnentitledTold | api/platform_context_validate_handler.go:143-171 | who is not entitled is told nothing but that it does not exist, or that it could not be looked up |
| ContextOwnership.EntitledTold | api/platform_context_validate_handler.go:174-212 | who is entitled and refused is told which of tenant, source, tenant state or authority refused it |
| ContextOwnership.VerifySubject | api/platform_context_validate_handler.go:238-260 | the first acceptance wins; unavailable if and only if none accepts and some audience could not be reached |
| AdminVerdict.EvaluateGrants | api/admin_shadow.go:310-391 | when the grants decide, when the caller is unresolved, when a store failed, and exactly when the comparison is not comparable |
| AdminVerdict.Decide | api/admin_shadow.go:200-264 | an unlisted permission keeps the role's verdict whatever the grants; where the grants decide it is allowed if and only if they were evaluated and allow; never allowed and unavailable; a comparison is evaluated if and only if the grants answered and cover the target, and then predicts what enforcing would answer |
| AdminVerdict.AdminGate | api/router.go:1412-1450 | the route gate serves exactly when whoever decides allows, the role or the grants, and is unavailable exactly when the role lookup or the deciding grants are |
| AdminVerdict.OperationAuthorised | api/operation_handler.go:32-60 | so does the check inside operation routes |

## Left out

- HTTP, JSON schemas, YAML decoding, problem rendering, audit logs and metrics: a request that
  its schema refuses does not enter the model. The payments instruction is one the schema admits.
- Token verification, introspection and SHA-256: their results are inputs; the hash is taken as
  injective where a statement says so, and a plan's digest and a request's hash are modelled by
  what they hash.
- The planner, the grants evaluator and the legal-actor resolver: their answers are arbitrary inputs.
- SQL: each transaction is one atomic step. Idempotent creation also models a commit whose
  outcome is reported as a failure; the other commands do not.
- Creating a provisioning: `Provisioning.Created` is its first record; the lookup, create and
  re-read around it is the protocol of `IdempotentCreate`.
- The desired-state version a replan may name: there is one version in the model, and the
  reason stands for all that a replan's request hashes.
- The state APPLYING, which the write after a failed execution names beside REMEDIATING
  (`internal/repository/postgres_convergence.go:598`): nothing in the model sets it.
- Leases: a running operation may be claimed again at any time, and a cancelled one finished as abandoned at any time.
- Errors of reading while judging staleness, answered as unavailable without a change.
- The provenance reference's syntax check and the evidence checks before the selectors run.
- The indexed directory search in the database, query parsing, the readiness and overview projections,
  and handlers that only decode, call one repository method and map errors: they would add easy members only.
- ShadowEvidence.Recorder.Flush: one flush alone, with no add in between; interleaving is in ShadowRuns, over the same steps.
- ProvisioningRuns.SeenIsEarlier: operations may advance without a new revision, as in the source, so it says nothing of their progress at one revision.
- AuthorityDecisions.Grant: one end for the three pipelines, where the source writes it three times.
- ProvisioningAuthority.AuthorityLastsExactlyWhile: the tenant, key and desired-state comparisons of an approved plan are taken as met; they do not change in a run.
