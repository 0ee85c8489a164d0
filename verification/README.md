# Verified model of the plan daemon

A Dafny model of the parts of the daemon, its database layer and its command line where a promise is about all inputs or
all histories: the verification-integrity surface (runs, evidence, retry budgets, tasks, rounds), the find-or-create
protocols and the migration runner under concurrency, the input fingerprint from working tree to digest, the forest of
collaboration patterns, the analysis of failure reports, and the autonomy policy table.

`dafny verify dfyconfig.toml` checks everything.

## How the model is built

- **Verification integrity.** `Tables` holds the rows and the read-only checks, `RunLifecycle` and `Steps` the effect of each
  request as a function of the tables (`Answer`), and `After` the tables after any sequence of requests. `Queries` and
  `Store` are the same handlers as they run: loops over rows and statements on one database, each proved to answer exactly as
  `Answer` does. `Ledger` and `Integrity` hold what every request keeps; `Conservation`, `PassEvidence`, `Exhaustion`,
  `Signatures`, `Infrastructure`, `RoundGates`, `Completion` and `Freshness` hold the promises, over all histories.
- **Concurrency.** In `Provenance` and `Migrations` a caller is a program counter; one event is one statement of one caller, a
  fault, or (for migrations) a crash. The promises are inductive invariants over all interleavings.
- **Fingerprint.** `Workspace` refines the snapshot (index lines overlaid with status lines) to hashing the tree directly,
  `Fingerprint` reads the hashed material back, and `Freshness` joins both with the run ledger.
- **Patterns.** `PatternForest` is the daemon's table, `PatternTree` the client's rendering of a list of patterns.
- **Reports.** `FailingTest`, `ErrorLine`, `Classify`, `Cause` and `EventStream` are the text loops.
- **Policies.** `Autonomy` is the policy table with its resolution and circuit breaker.

SHA-256 is any function whose outputs are 64 hexadecimal digits; where a result needs two particular texts not to collide, it
says so for those texts. The clock, the workspace as it is at a request, and look-ups whose answer row order decides come with
the request.

## Where the code differs from what its comments say

The model follows the code.

- Budgets are looked up under the plan of the task or round a request goes through, not under the scenario's. So a task of
  another plan starts on an exhausted scenario (`crates/daemon/src/router/task.rs:142`; `Exhaustion.StartAcceptedExactly`,
  `OtherPlanStarts`), and a round of another plan takes any verdict on it that names no run
  (`crates/daemon/src/router/round.rs:292-299`; `PostOnExhausted`, `OtherRoundTakesUnprovenPass`). Completions are not
  affected: `CompletionOnExhausted`.
- The comment on retry budgets says that a counter is reset only by a decision; but an exhaustion also ends by a policy write
  with a higher cap, even one that asks for none: `Exhaustion.RaisedCapReopens`, `OmittedCapReopens`.
- The comment on the completion gate asks for a passing run; the code lifts the gate after any later finished run that is not of
  an infrastructure class, passed or not: `Infrastructure.LaterFinishDecides`.
- Activation is not one transaction: a refusal by the unique index leaves tasks interrupted and verdicts carried over.
  `RoundGates.RefusedActivationExactly` says exactly when.
- An omitted retry cap is kept unless the request names the empty plan on a tuned row: `Autonomy.OmittedCapKeepsCap`.
- A decision-kind policy may carry a plan, but is then never the answer of a query:
  `Autonomy.PlannedDecisionRowsAreNeverResolved`.
- The floor of a decision kind that is not forced admits L3 only, which is stricter than the L4 of a forced kind:
  `Autonomy.FloorAdmits`.
- `resolve_depth_cap` documents pattern kind before global; the code asks for the plan's policy first.
- A pending pattern converges without the shape gate, and an active one may go back to pending: `PatternForest.ConvergedNeedsNoShape`.
- The chore container documents idempotence; a foreign round with number 1 makes it fail: `Provenance.ChoreFailsExactly`.
- Committing a deletion changes the snapshot although no content changes: `Workspace.CommittedDeletionChangesEntries`.
- A line feed in a tool version or glob, or an equals sign in a tool name, makes the fingerprint material ambiguous:
  `Fingerprint.LineFeedInVersionIsAmbiguous` and its neighbours.
- A bare `error[E0308]: mismatched types` stops the search for a diagnostic and falls back: `Cause.BareMismatchFallsBack`.
- `render_tree` prints nothing for rows on a parent cycle: `PatternTree.PermutationIffGrounded`.

## Model

| member | source | states |
|---|---|---|
| Conservation.FailuresAreConserved | crates/daemon/src/router/run.rs:320-536 | over every history, the lifetime failures of a scenario's buckets sum to the number of its finished runs with a failure class |
| Conservation.FinishChargesOnce | crates/daemon/src/router/verification.rs:436-450 | a finish charges at most one bucket, by one, the one its own class and signature name, in the step that makes the run terminal; all other runs and buckets stay |
| Conservation.RefusedFinishChangesNothing | crates/daemon/src/router/run.rs:417-523 | a refused finish, a failed debit included, leaves the whole database as it was; the step function has this by its shape, and the handler's rollback is what `Store.Handlers.Terminate` proves |
| Conservation.CountersFallOnlyByRelease | crates/db/src/repo/retry_budget.rs:220-262 | no request but a release lowers a counter, and none removes a bucket or lowers its lifetime total |
| Conservation.DebitAddsOne | crates/db/src/repo/retry_budget.rs:53-99 | booking a failure adds one to the sum over its own scenario's buckets and nothing to any other scenario's |
| PassEvidence.PassesAreProven | crates/daemon/src/router/verification.rs:105-213 | over every history, a `passing` row that names a run names a finished run of the same scenario and of the round's plan with result success, exit 0, no signal, timeout or spawn error and class none, and no later request alters that run |
| PassEvidence.AcceptedPassIsProven | crates/daemon/src/router/verification.rs:191-213 | a pass accepted on a run reference is proven by that run, whose fingerprint matches the workspace of the request |
| PassEvidence.SubmittedPassIsFresh | crates/daemon/src/router/round.rs:282-318 | a pass posted on a round with a run reference rests on a proving run that is fresh at that moment |
| PassEvidence.CompletedPassIsFresh | crates/daemon/src/router/task.rs:210-225 | so does every pass with a run reference in the evidence of a completed task |
| PassEvidence.CleanPassHasClassNone | crates/core/src/run.rs:125-136 | a clean pass is a structured finish of class none; a legacy finish can never back a pass |
| PassEvidence.StepKeepsEvidence | crates/db/src/repo/round.rs:648-741 | every request, carry-over included, keeps all rows with run references proven |
| Freshness.FreshUntilInputsChange | crates/db/src/repo/run.rs:335-359 | whatever requests follow the start of a run with a command, its evidence is fresh exactly while the scenario's wording, the content of every input and the pending deletions are those of the start |
| Freshness.AcceptedPassSawTheseInputs | crates/daemon/src/router/verification.rs:105-169 | a pass the gates accept on a run's authority: the run succeeded cleanly for this scenario and plan, and nothing it verified has changed since it started |
| Freshness.StartedRunIsBound | crates/daemon/src/router/run.rs:108-240 | an accepted start adds one unfinished run and nothing else: an explicit task owns the scenario, otherwise the single owner in progress is linked, the plan is the scenario's, the round the task's or an active one of the plan, and a run with a command is fresh |
| Completion.FinishAcceptedExactly | crates/daemon/src/router/run.rs:328-411 | when a finish is accepted (result, exit status, class and signature do not contradict each other), and the result, outcome, time and class it records |
| Completion.CompletionAcceptedExactly | crates/daemon/src/router/task.rs:159-256 | when a task completion is accepted, and the verdict table afterwards, row by row: each scenario with evidence has its last entry in the task's round, every other row stays |
| Steps.RecordedExactly | crates/daemon/src/router/task.rs:234-244 | writing verdicts one by one leaves the last entry of each scenario and touches no other row |
| Exhaustion.ExhaustedUntilReleased | crates/db/src/repo/retry_budget.rs:180-205 | over every history in which no request reopens the scenario (the guard of the next row), it stays exhausted and no task of its plan that owns it enters progress, tasks created or renamed later included |
| Exhaustion.ExhaustionEndsExactly | crates/db/src/repo/retry_budget.rs:42-262 | a request ends an exhaustion exactly when it is an accepted release of every exhausted bucket, or an accepted write of the policy that governs the plan with a cap above every counter of the scenario |
| Exhaustion.ExhaustionLasts | crates/db/src/repo/retry_budget.rs:42-262 | any request outside that guard keeps the exhaustion, circuit breakers included |
| Exhaustion.NothingStarts | crates/daemon/src/router/task.rs:138-143 | while a scenario is exhausted no request, of whatever kind, puts a task of its plan that owns it in progress |
| Exhaustion.StartAcceptedExactly | crates/daemon/src/router/task.rs:134-144 | a task starts exactly when the transition is allowed and no scenario it owns in its own plan is exhausted; scenarios of other plans never hold it back |
| Exhaustion.OtherPlanStarts | crates/daemon/src/router/task.rs:141-143 | a task on one exhausted scenario starts exactly when it belongs to another plan |
| Exhaustion.RaisedCapReopens | crates/db/src/repo/retry_budget.rs:42-49 | for one policy write, from the request and the rows before it: the cap of the plan afterwards, and that the exhaustion ends exactly when the write is accepted, governs the plan and its cap (given, else the row's, else 3) is above every counter |
| Exhaustion.OmittedCapReopens | crates/daemon/src/router/autonomy_policy.rs:84-95 | a concrete database where the first policy of a plan, with no cap asked for, raises the cap from 1 to 3 and reopens a scenario |
| Exhaustion.ReachablePoliciesAreOk | crates/core/src/autonomy_policy.rs:218-311 | over every history the policies the caps are read from satisfy their rules |
| Exhaustion.OnlyProvenPassIsAccepted | crates/daemon/src/router/verification.rs:174-187 | through the plan of the exhausted scenario a verdict is accepted exactly when it is a pass proven by a fresh clean run |
| Exhaustion.PostOnExhausted | crates/daemon/src/router/round.rs:282-307 | a verdict posted on an exhausted scenario is accepted exactly when, on a round of its plan, it is such a pass, and, on a round of another plan, it is any submitted verdict that names no run |
| Exhaustion.ForeignVerdict | crates/daemon/src/router/verification.rs:105-213 | through another plan exactly the verdicts that name no run are accepted, whatever the scenario's budgets |
| Exhaustion.OtherRoundTakesUnprovenPass | crates/daemon/src/router/round.rs:291-300 | a concrete database where a round of another plan takes a pass without evidence for an exhausted scenario |
| Exhaustion.CompletionOnExhausted | crates/daemon/src/router/task.rs:180-225 | a completion has no such way round, since references resolve within the task's plan: it is accepted exactly when the task is in progress, the evidence is not blank and every entry, about an owned scenario of that plan, is a proven pass where the scenario is exhausted |
| Exhaustion.ExhaustedRowsAreProven | crates/daemon/src/router/round.rs:282-307 | any request that changes the row of an exhausted scenario, in a round of any plan, writes a proven pass, or is the activation that carries it over, or is a post through a round of another plan that names no run |
| Exhaustion.PauseIsUndone | crates/daemon/src/router/round.rs:177-183 | a task paused by an activation is put back exactly as it was by a start, which is accepted exactly when no scenario it owns in its plan is exhausted |
| Exhaustion.SummaryAloneEndsTask | crates/core/src/task.rs:81-97 | a summary without entries ends a task and writes no verdict, exhausted or not |
| Exhaustion.ReleaseExactly | crates/db/src/repo/retry_budget.rs:220-262 | a release is accepted exactly on a standing decision of the scenario's plan with a bucket to release; it zeroes exactly those counters and keeps their lifetime totals and all other buckets |
| Exhaustion.FullReleaseEndsExhaustion | crates/daemon/src/router/verification.rs:402-432 | a release of all signatures ends the exhaustion |
| Signatures.DiagnosedBucketsAreDerived | crates/daemon/src/router/run.rs:417-483 | over every history, a bucket whose signature looks diagnosed was opened by a finished run of its plan, scenario and class, and that signature is what the failure-cause derivation gives for that run on some report |
| Signatures.DiagnosedRunsAreDerived | crates/core/src/verification/cause.rs:16-80 | so was every diagnosed-looking signature of a finished run: its own derivation or that of the run that opened the bucket it was bridged to gave it |
| Signatures.ManualIsCoarse | crates/core/src/verification.rs:536-564 | neither a caller's signature nor a v1 digest ever looks diagnosed |
| Signatures.ProbeAgreesWithShape | crates/db/src/repo/retry_budget.rs:146-166 | in every reachable database the bridge's probe of a bucket's first run agrees with the shape of the bucket's signature |
| Signatures.DiagnosisCannotRepartition | crates/db/src/repo/retry_budget.rs:131-177 | while a coarse counter of the class is outstanding a new diagnosis opens no bucket: the failure goes to an existing one |
| RunLifecycle.BridgeIsUnique | crates/db/src/repo/retry_budget.rs:170-176 | exhausted first, then the larger counter, then the smaller signature: the order leaves one bridge |
| Infrastructure.OutsideEndIsInfrastructure | crates/core/src/verification.rs:256-323 | a run ended by spawn error, timeout, signal or exit 126, 127 or 137, without a caller's class, is of harness or environment class, or aborted |
| Infrastructure.OutsideEndSparesProduct | crates/daemon/src/router/run.rs:377-416 | whatever its report says, such a run leaves every product bucket as it was |
| Infrastructure.OutsideEndHolds | crates/daemon/src/router/run.rs:377-416 | over every history, from the accepted finish of such a run of a live scenario, not aborted and not earlier than the other finished runs of the scenario in the round, no completion of the round is accepted until a run of the scenario finishes there with another class or the scenario is retired |
| Infrastructure.HeldUntilSuperseded | crates/daemon/src/router/verification.rs:218-252 | the same from any held round on |
| Infrastructure.HoldLasts | crates/db/src/repo/run.rs:195-211 | every other request keeps the hold |
| Infrastructure.LaterFinishDecides | crates/daemon/src/router/verification.rs:218-252 | a finish later than all others lifts the hold exactly when its class is not an infrastructure one, whether or not the run passed |
| Infrastructure.CompletionAcceptedExactly | crates/daemon/src/router/round.rs:249-262 | a round completes exactly when it is active and no live scenario holds it back |
| RoundGates.OneActiveRound | crates/db/src/migrations/015_task_kind.sql:35-38 | over every history a plan has at most one active round that is not a chore round, and its round numbers and codes are unique |
| RoundGates.StepKeepsUnique | crates/core/src/round.rs:166-186 | every request keeps that, and a round's status only goes from planning to active to completed |
| RoundGates.LatestCompletedIsUnique | crates/db/src/repo/round.rs:122-136 | the round whose verdicts are carried over is determined |
| RoundGates.RefusedActivationExactly | crates/daemon/src/router/round.rs:142-215 | a refused activation changes the database exactly when it passed its checks and had a task to interrupt or a verdict to carry over, or when no other round was active |
| RoundGates.RefusedRequestChangesNothing | crates/daemon/src/router/task.rs:227-251 | every other refused request leaves the database as it was; the step function has this by its shape, and the handlers of `Store.Handlers` are proved equal to it |
| RoundGates.PausedThoughRefused | crates/daemon/src/router/round.rs:177-208 | the tasks in flight are paused although the activation is refused for another active round |
| RoundGates.RefusedActivationLeavesTrace | crates/daemon/src/router/round.rs:177-208 | a concrete database in which that happens |
| RoundGates.ActivationStopsWork | crates/daemon/src/router/round.rs:164-197 | after an activation got past its checks no task of the plan is in progress unless the policy lets it run on; those that were are blocked or cancelled as the policy says, and no other task changes |
| RoundGates.CarryOverExactly | crates/db/src/repo/round.rs:630-741 | which rows an activated strict-regression round has, that only a pass is ever demoted, and that a pass carried on a run's authority is fresh |
| RoundGates.ActivationSparesOtherRounds | crates/db/src/repo/round.rs:648-741 | verdicts of other rounds stay |
| RoundGates.StepMovesTasks | crates/core/src/task.rs:136-166 | every request, the activation that bypasses the check included, moves tasks along the transition table only and makes none done without evidence |
| RoundGates.DoneTasksAreFinal | crates/core/src/task.rs:81-166 | over every history a done task has evidence about scenarios it owns, and no later request touches a done or cancelled task |
| Ledger.HistoryGrows | crates/db/src/repo/run.rs:252-288 | over every history no row disappears, references never change, lifetime totals never fall, and a finished run is frozen |
| Ledger.StepGrows | crates/db/src/repo/run.rs:213-288 | each request keeps that |
| Ledger.OnlyRunRequestsTouchTheLedger | crates/daemon/src/router/task.rs:210-256 | requests about tasks, rounds, verdicts and the catalogue touch no run and no bucket |
| Ledger.Frame | crates/daemon/src/router/run.rs:108-536 | each kind of request leaves the tables of the others alone |
| Integrity.ReachableIsOk | crates/daemon/src/router/run.rs:370-411 | over every history references resolve, a run's plan is its scenario's, a finish's class agrees with its result, and a counter never exceeds its lifetime total |
| Integrity.StepKeeps | crates/daemon/src/router/run.rs:320-536 | every request keeps that |
| Queries.ListBudgets | crates/db/src/repo/retry_budget.rs:102-129 | exactly the buckets of the scenario in the plan, or missing plan |
| Queries.ExhaustedFor | crates/db/src/repo/retry_budget.rs:180-194 | exactly the buckets of the scenarios that reached the cap |
| Queries.EnsureAvailable | crates/db/src/repo/retry_budget.rs:197-205 | refused exactly when some scenario is exhausted |
| Queries.CheckVerdict | crates/daemon/src/router/verification.rs:174-213 | the evidence check and the budget gate together |
| Queries.CompatibilityBucket | crates/db/src/repo/retry_budget.rs:133-177 | the loop and the sort find the one bridge, or none |
| Queries.OwnerOf | crates/daemon/src/router/run.rs:158-173 | the task in progress that owns the scenario, when there is exactly one |
| Queries.FindActiveRound | crates/db/src/repo/round.rs:109-120 | an active round of the plan, or none when there is none |
| Queries.NextNumber | crates/db/src/repo/round.rs:138-145 | one more than the largest number of the plan's rounds |
| Queries.LatestCompleted | crates/db/src/repo/round.rs:122-136 | the completed round of the plan with the largest number, or none |
| Queries.ListInFlight | crates/db/src/repo/task.rs:105-124 | exactly the tasks in progress in the plan's rounds, each once |
| Queries.UnresolvedInfrastructure | crates/daemon/src/router/verification.rs:218-252 | exactly the runs that hold the round back |
| Store.Handlers.StartRun | crates/daemon/src/router/run.rs:108-240 | look-ups and insert answer as the start step, with the owner and round the tables hold |
| Store.Handlers.FinishRun | crates/daemon/src/router/run.rs:320-536 | the handler answers as the finish step, bridge selection and debit included |
| Store.Handlers.Terminate | crates/daemon/src/router/run.rs:417-523 | terminal state and debit are written together or, when the debit fails, not at all |
| Store.Handlers.ReleaseBudget | crates/daemon/src/router/verification.rs:402-432 | the handler answers as the release step and releases at least one bucket when it succeeds |
| Store.Handlers.SetStatus | crates/daemon/src/router/task.rs:125-152 | the handler answers as the move step |
| Store.ResolveEntries | crates/daemon/src/router/task.rs:180-204 | rewriting the references in place gives the resolved evidence, or fails on a reference that names no scenario the task owns |
| Store.CheckEntries | crates/daemon/src/router/task.rs:210-225 | the gates are applied in order and the first refusal is the answer |
| Store.WriteEntries | crates/daemon/src/router/task.rs:234-244 | one upsert per entry leaves the recorded verdicts |
| Store.Handlers.Complete | crates/daemon/src/router/task.rs:159-256 | the handler answers as the completion step: task and verdicts change together or not at all |
| Store.Handlers.EndChore | crates/daemon/src/router/chore.rs:98-127 | the handler answers as the chore step |
| Store.Handlers.PostResult | crates/daemon/src/router/round.rs:282-307 | the handler answers as the verdict step |
| Store.Handlers.CreateRound | crates/daemon/src/router/round.rs:58-102 | the handler answers as the round step, with the next number |
| Store.Handlers.CompleteRound | crates/daemon/src/router/round.rs:249-270 | the handler answers as the completion step of a round |
| Store.Handlers.Interrupt | crates/daemon/src/router/round.rs:177-197 | one status update per task in flight gives the interrupted task table |
| Store.CarryOver | crates/db/src/repo/round.rs:648-741 | one upsert per row of the previous round gives the carried-over verdict table |
| Store.Handlers.Activate | crates/daemon/src/router/round.rs:142-218 | the handler answers as the activation step, half done where it fails late |
| Store.Handlers.Promote | crates/db/src/repo/round.rs:389-413 | the status update and the baseline, and the two ways they fail |
| Provenance.LostRacesAreHarmless | crates/daemon/src/router/provenance.rs:43-166 | for any number of callers and any interleaving of look-up, insert and re-read, no two rows share a key, and a caller ends in an error only when a chore container met a foreign round with number 1; a sentinel caller never loses |
| Provenance.SameIds | crates/daemon/src/router/provenance.rs:43-166 | callers that ask for the same thing return the same ids, at whatever times of the run |
| Provenance.StepDescends | crates/daemon/src/router/provenance.rs:49-166 | a caller ends within seven statements of its own, whatever the others do |
| Provenance.LostToForeignRound | crates/daemon/src/router/provenance.rs:83-113 | a caller that re-reads after a conflict and finds nothing lost to a round that took the number, not the code |
| Provenance.ChoreFailsExactly | crates/daemon/src/router/provenance.rs:43-113 | exactly when a chore caller left alone fails |
| Provenance.AskingAgainChangesNothing | crates/daemon/src/router/provenance.rs:43-166 | a second call returns the same ids and changes nothing |
| Provenance.Store.Insert | crates/daemon/src/router/provenance.rs:156-164 | an insert appends the row exactly when no unique key of it is taken |
| Provenance.Store.Ensure | crates/daemon/src/router/provenance.rs:124-166 | look-up, insert and re-read return the id of the key's row and leave one such row |
| Provenance.Store.EnsureChoreContainer | crates/daemon/src/router/provenance.rs:43-113 | the two stages answer as a caller left alone |
| Provenance.Store.EnsureDirectPattern | crates/daemon/src/router/provenance.rs:124-166 | so does the sentinel |
| Migrations.CommittedIsPrefix | crates/db/src/schema.rs:104-181 | for any number of runners, with faults and crashes at any statement, the committed versions are 1 to k, each once and in order, the schema is the fold of their scripts, and foreign keys hold |
| Migrations.SuccessMeansComplete | crates/db/src/schema.rs:104-181 | a runner that reports success leaves all versions committed and foreign keys enforced on its connection |
| Migrations.OnlyGrows | crates/db/src/schema.rs:122-179 | committed versions are never lost or reordered |
| Migrations.CompleteIsFinal | crates/db/src/schema.rs:114-125 | once all versions are committed nothing changes the database |
| Migrations.LateRunnerIsRefused | crates/db/src/schema.rs:139-173 | of two runners at the same version the second is refused, never doubled |
| Migrations.Connection.ApplyOne | crates/db/src/schema.rs:139-173 | one migration commits script, check and version row together or rolls all back |
| Migrations.Connection.Migrate | crates/db/src/schema.rs:126-178 | foreign keys are enforced again after each turn of the loop, whatever failed |
| Migrations.Connection.EnsureSchema | crates/db/src/schema.rs:104-181 | the loop answers as a runner left alone |
| Workspace.SnapshotIsDirect | crates/db/src/workspace.rs:127-207 | the snapshot gives every path the token that hashing the working tree directly gives, whatever the index and HEAD hold |
| Workspace.EntriesFollowContent | crates/db/src/workspace.rs:127-207 | two states give equal entries exactly when every input has the same content and the same deletions are pending |
| Workspace.FingerprintFollowsContent | crates/db/src/workspace.rs:210-225 | two fingerprints agree exactly when the declarations agree (globs in any order), every input has the same content and the same deletions are pending |
| Workspace.CommittedDeletionChangesEntries | crates/db/src/workspace.rs:162-187 | committing a deletion changes the entries although no content changes |
| Workspace.LineFeedInNameFails | crates/db/src/workspace.rs:188-205 | a reported file whose name holds a line feed makes the snapshot fail |
| Workspace.PathspecsRefuseOnlyAbsolute | crates/db/src/workspace.rs:103-124 | only an absolute glob is refused, and blank globs restrict nothing |
| Workspace.Pathspecs | crates/db/src/workspace.rs:103-124 | the loop gives the specifications, or refuses |
| Workspace.Snapshot | crates/db/src/workspace.rs:127-207 | the loops over index, status and object ids give the snapshot |
| Fingerprint.MaterialReadsBack | crates/core/src/verification.rs:584-603 | a reader recovers contract, command, tools, sorted globs and entries from the hashed material |
| Fingerprint.MaterialTellsInputsApart | crates/core/src/verification.rs:584-603 | clean inputs have the same material exactly when they are the same up to glob order |
| Fingerprint.FingerprintTellsInputsApart | crates/core/src/verification.rs:584-603 | so do their fingerprints, absent a collision of the two materials |
| Fingerprint.GlobOrderDoesNotMatter | crates/core/src/verification.rs:584-603 | reordering globs never changes the material, clean or not |
| Fingerprint.LineFeedInVersionIsAmbiguous | crates/core/src/verification.rs:584-603 | a line feed in a tool version makes two different inputs print alike |
| Fingerprint.LineFeedInGlobIsAmbiguous | crates/core/src/verification.rs:584-603 | so does one in a glob |
| Fingerprint.EqualsInNameIsAmbiguous | crates/core/src/verification.rs:584-603 | so does an equals sign in a tool name |
| Fingerprint.DeclaredToolsAreClean | crates/core/src/verification.rs:606-621 | `name=version` declarations without line feeds always give a clean tool map |
| Fingerprint.ContractTellsWordingsApart | crates/core/src/verification.rs:568-571 | wordings without NUL hash the same text exactly when they are the same wording |
| Fingerprint.MatchingFingerprintMeansUnchanged | crates/core/src/verification.rs:568-603 | a stored fingerprint still matches exactly when wording and inputs are unchanged |
| Fingerprint.ComputeFingerprint | crates/core/src/verification.rs:584-603 | the buffer built section by section is the material of the inputs |
| Fingerprint.ParseToolVersions | crates/core/src/verification.rs:606-621 | the loop gives the tool map, later declarations over earlier ones, or refuses a malformed one |
| Json.PrintedStringsReadBack | crates/core/src/verification.rs:589-590 | a command printed as JSON reads back as itself, whatever text follows |
| PatternForest.RunKeeps | crates/daemon/src/router/pattern.rs:75-142 | over every history ids and codes are unique, links point to earlier patterns with one less depth, every active pattern has a valid shape, and none is deeper than ten |
| PatternForest.ClimbsToRoot | crates/daemon/src/router/pattern.rs:90-107 | parent links reach a root in exactly `depth` steps, one depth less with each |
| PatternForest.DepthWasWithinCap | crates/daemon/src/router/pattern.rs:304-319 | over every history a child was within the cap in force when it was created |
| PatternForest.RowsPersist | crates/core/src/pattern.rs:147-152 | rows are never removed, their origin never changes, and a terminal lifecycle is final |
| PatternForest.BindingsAreSound | crates/daemon/src/router/provenance.rs:188-236 | work bound explicitly is bound to an active, shape-valid pattern of its own plan, which keeps its shape and plan ever after |
| PatternForest.ConvergedNeedsNoShape | crates/daemon/src/router/pattern.rs:197-249 | a pending pattern of any shape may be declared converged |
| PatternForest.ValidateShape | crates/core/src/pattern.rs:326-375 | the check accepts exactly the shapes of each kind |
| PatternForest.PatternStore.Create | crates/daemon/src/router/pattern.rs:75-142 | the handler answers as the creation step |
| PatternForest.PatternStore.TransitionLifecycle | crates/daemon/src/router/pattern.rs:197-249 | the handler answers as the transition step |
| PatternTree.PermutationIffGrounded | crates/cli/src/commands/pattern.rs:189-276 | the output is a permutation of the input exactly when no row hangs on a cycle |
| PatternTree.PrintedLines | crates/cli/src/commands/pattern.rs:189-276 | the lines are exactly the rows with an ancestor chain, each indented by the number of its ancestors in the list |
| PatternTree.NoRowTwice | crates/cli/src/commands/pattern.rs:238-276 | no row is printed twice, for any list with unique ids |
| PatternTree.GroundedIsPrinted | crates/cli/src/commands/pattern.rs:189-236 | a row with an ancestor chain is printed under that chain, and marked as an orphan when it names a parent not in the list |
| PatternTree.ChildrenAfterParents | crates/cli/src/commands/pattern.rs:238-276 | every indented line comes after its parent's |
| PatternTree.SiblingsByAge | crates/cli/src/commands/pattern.rs:205-211 | siblings come in order of creation |
| PatternTree.OnlyCyclesPrintNothing | crates/cli/src/commands/pattern.rs:189-236 | a list with cycles only is printed as if it were empty |
| PatternTree.RenderTree | crates/cli/src/commands/pattern.rs:189-236 | the loops and the recursive walk print exactly the specified lines and terminate on every list with unique ids |
| PatternTree.WalkRow | crates/cli/src/commands/pattern.rs:238-276 | the recursive walk appends the lines of a row and of everything below it, and terminates |
| Cause.SurroundingsDoNotMatter | crates/core/src/verification/cause.rs:16-80 | the identity depends on the report only through the first diagnostic line and, for a Rust code, its block |
| Cause.EveryReportDecomposes | crates/core/src/verification/cause.rs:100-153 | every report is noise, or noise, a first diagnostic, its block and a rest |
| Cause.NoDiagnosticNoReport | crates/core/src/verification/cause.rs:63-79 | without a supported diagnostic the identity does not depend on the report |
| Cause.BareMismatchFallsBack | crates/core/src/verification/cause.rs:53-62 | a type mismatch without details stops the search, whatever follows |
| Cause.SignatureTellsCausesApart | crates/core/src/verification/cause.rs:63-79 | two identities share a signature exactly when contract, class and diagnostic (or broad error class) agree; a fallback is never a precise one |
| Cause.MaterialInjective | crates/core/src/verification/cause.rs:63-79 | contract, class, basis and detail can be read back from the hashed material |
| Cause.EscapeLeavesNoTrace | crates/core/src/verification/cause.rs:190-206 | a complete escape sequence leaves no trace |
| Cause.StripAnsi | crates/core/src/verification/cause.rs:190-206 | the iterator loop gives the text without escape sequences |
| Cause.ExtendDiagnostic | crates/core/src/verification/cause.rs:33-52 | the continuation loop adds the details of all lines up to the end of the block |
| Cause.DeriveFailureCause | crates/core/src/verification/cause.rs:16-80 | the whole derivation |
| FailingTest.FailingTestIsLeast | crates/core/src/verification.rs:376-425 | the result is the least declared name, and there is one exactly when some line declares one |
| FailingTest.OrderIndependent | crates/core/src/verification.rs:376-425 | permuting or repeating report lines never changes it |
| FailingTest.OnlyDeclarationsMatter | crates/core/src/verification.rs:376-425 | nor do lines that declare no test |
| FailingTest.ExtractFailingTest | crates/core/src/verification.rs:378-425 | the loop and the sort give that name |
| ErrorLine.NormalizedIsClean | crates/core/src/verification.rs:477-516 | at most 120 characters, no digit, upper-case letter, quote, backtick, slash or backslash, single spaces |
| ErrorLine.NormalizedTwice | crates/core/src/verification.rs:477-516 | normalising again only drops the one space truncation may leave, and a third time changes nothing |
| ErrorLine.NumbersDoNotMatter | crates/core/src/verification.rs:474-516 | a line keeps its class when digits are replaced by digits |
| ErrorLine.NormalizeErrorLine | crates/core/src/verification.rs:477-516 | the nested loops, quote state carried across words, give the normal form |
| Classify.ReportBlamesInfrastructure | crates/core/src/verification.rs:324-374 | for an ordinary nonzero exit, exactly when the product is cleared |
| Classify.ClassMatchesOutcome | crates/core/src/verification.rs:240-374 | class none exactly for a passed outcome, and `spec` is never computed |
| Classify.EndedOutsideIsInfrastructure | crates/core/src/verification.rs:256-323 | a run ended from outside is charged to harness or environment |
| EventStream.ChunkingIndependence | crates/cli/src/commands/ops.rs:165-203 | however a byte stream is cut into chunks, frames and leftover are those of the whole stream |
| EventStream.FramingUnique | crates/cli/src/commands/ops.rs:200-203 | they are the one and only way to cut the stream at its blank lines |
| EventStream.FramesAppend | crates/cli/src/commands/ops.rs:168-172 | reading on behind the leftover finds exactly the frames of the joined stream |
| EventStream.CountLimitIsPrefix | crates/cli/src/commands/ops.rs:190-194 | a smaller count prints a prefix of what a larger one prints |
| EventStream.Watch | crates/cli/src/commands/ops.rs:154-198 | the nested loops print the first matching events of the delivered bytes, up to the count |
| EventStream.Drain | crates/cli/src/commands/ops.rs:170-195 | the inner loop takes the complete frames off the buffer |
| Autonomy.TableIsReplay | crates/db/src/repo/autonomy_policy.rs:60-256 | over every history the row of a key is what that key's accepted writes and the breakers since leave |
| Autonomy.RunKeepsInv | crates/core/src/autonomy_policy.rs:218-311 | over every history keys are unique and every row satisfies its scope rule, its kind floor and its ranges |
| Autonomy.ResolvesToMostSpecific | crates/db/src/repo/autonomy_policy.rs:147-232 | the answer is the row of the first candidate scope that has one |
| Autonomy.PlannedDecisionRowsAreNeverResolved | crates/db/src/repo/autonomy_policy.rs:147-232 | a decision-kind row with a plan is never the answer |
| Autonomy.BreakerHoldsUntilUpsert | crates/db/src/repo/autonomy_policy.rs:236-256 | after a breaker every query of its project answers L3 or nothing until a write of a policy of that project is accepted |
| Autonomy.BreakerIsLocal | crates/db/src/repo/autonomy_policy.rs:236-256 | a breaker changes no answer about another project and reports exactly the rows it changed |
| Autonomy.FloorAdmits | crates/core/src/autonomy_policy.rs:69-92 | a decision-kind policy passes its floor exactly when it is L3, or L4 for a forced kind |
| Autonomy.OmittedCapKeepsCap | crates/daemon/src/router/autonomy_policy.rs:75-132 | an omitted cap keeps the row's cap exactly unless the request names the empty plan and the row was tuned |
| Autonomy.EmptyPlanResetsCap | crates/daemon/src/router/autonomy_policy.rs:75-132 | a concrete row that such a request resets |
| Autonomy.PlanCapAfterWrite | crates/daemon/src/router/autonomy_policy.rs:84-95 | a write changes the cap in force for a plan exactly when it is accepted, writes the plan's row, or the project's global one while the plan has none, and writes another cap |
| Autonomy.PlanCapAfterBreak | crates/db/src/repo/autonomy_policy.rs:236-256 | a circuit breaker changes no cap |
| Autonomy.AnswerIsWrittenRow | crates/daemon/src/router/autonomy_policy.rs:75-132 | the answer of an accepted upsert is the row it wrote exactly unless it is a decision-kind policy of a plan |
| Autonomy.PolicyTable.Upsert | crates/db/src/repo/autonomy_policy.rs:60-123 | the table after an upsert, and why it is refused |
| Autonomy.PolicyTable.Resolve | crates/db/src/repo/autonomy_policy.rs:147-198 | the look-ups in order give the most specific row |
| Autonomy.PolicyTable.Post | crates/daemon/src/router/autonomy_policy.rs:75-132 | the handler reads the cap, writes the row and answers with what the scope resolves to |
| Autonomy.PolicyTable.CircuitBreaker | crates/db/src/repo/autonomy_policy.rs:236-256 | the table after a breaker, and the number of rows demoted |

## Left out

- FreshUntilInputsChange: assumes git's contract on `ls-files` and `status`, file names without line feeds, no submodules, and that the few texts hashed for the comparison do not collide.
- SnapshotIsDirect: does not model names that start with a quote character or end in a carriage return, which `git hash-object --stdin-paths` reads differently, nor `core.quotePath`.
- ContractTellsWordingsApart: assumes wordings without NUL; with NUL two wordings can print alike.
- ErrorLine.NormalizedTwice: characters are ASCII; Unicode case folding and Unicode white space are not modelled.
- EventStream.ChunkingIndependence: covers the LF-only framing of the reader, not the CR and CRLF line ends of section 9.2.5 of the WHATWG HTML Living Standard.
- FinishChargesOnce: two simultaneous finishes of one run are not modelled; a handler is one step, although its check for a finished run comes before the transaction.
- ReachableIsOk: import, export and cascading deletes bypass the handlers and are not steps.
- CarryOverExactly: notes of verdict rows are not modelled; the evidence of a carried row is.
- ResolveEntries: when a reference is the id of one scenario and the short code of another in the same plan, the query may return either; the model takes the id.
- CompatibilityBucket: the index order of the rows is not modelled; the sort makes the result independent of it.
- ChoreFailsExactly: does not model a project that is missing; inserting its container then fails on the foreign key, which is not a conflict and so an error.
- LostRacesAreHarmless: a statement is atomic, and conflicts come from unique keys only; a locked database or a full disk is not modelled.
- CommittedIsPrefix: a failed commit is taken to leave no open transaction; the content of the scripts is a parameter.
- HTTP, JSON decoding, event publishing, the command line's argument shapes and the dashboard: plumbing without a hard property.
- The search for the active plan of a directory: its answer comes with the request.
- Task short codes, descriptions, requirement parents, leases, decomposition relations and task provenance: no gate of the model reads them.
- The reuse check, baseline progress percentages and the caller's baseline blob: read-only summaries or a lock of the same kind as the recorded baseline, which is modelled.
- Report paths, report digests and the reading of the report's tail: the tail and whether it is all of the report come with the request.
- Snapshot-phrase word lists, enum parsing and printing, range validators of usage sums: easy members.
- Daemon start-up, process locks, ports and pid files: operating system guarantees.
