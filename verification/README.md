# AI Council verification

A Dafny model of the parts of AI Council that decide what is changed on a user's disk, and
proofs about every run of them. AI Council lets a council of language models write an
execution plan, asks a person to approve it, and has a separate runner apply the plan's
patches and run its commands. The model follows the Go code function by function.

| files | what they model |
|---|---|
| `unified_diff`, `edit_script`, `diff_reading`, `diff_round_trip` | the hand-written unified-diff interpreter, what it ignores and refuses, printers for edit scripts, and the round trips between them |
| `file_transaction`, `transaction_outcome` | the multi-file write with snapshots and reverse-order rollback, on a disk whose writes may fail, and when it succeeds or fails and why |
| `plans` | plans, their approval hash, and the RPC message that carries them |
| `idempotency` | the runner's store of claims and remembered responses, in memory and in a table shared by processes |
| `runner_service`, `effect_outcome` | the runner's one effectful RPC, and its answers in terms of its commands' outcomes |
| `approvals`, `council_steps`, `council_api`, `handler_answers` | the council's database rows, its task handlers, the API object, and what its answers mean |
| `council_protocol`, `runner_protocol`, `lifecycle` | both processes as state machines over their lock sections, with crashes, restarts, lost replies, retries and late or repeated deliveries |
| `refinement` | the state machines' steps, run in a row, are the handlers |
| `lifecycle_safety`, `deliberation`, `stopping`, `draft_restart`, `lifecycle_examples` | what holds of every run, and the runs that show where a promise fails |
| `disk_lifecycle` | the lifecycle on a disk: what a success, a failure, a panic and a death mean for the files |
| `limiter`, `limiter_history`, `limiter_admission` | the login limiter, its sliding window over all interleavings, and whom it lets in |
| `alias`, `review` | proposal aliases, and the concurrent workers of peer review |
| `ordered`, `run_log`, `event_log` | the versioned run log and the resumable event stream |
| `text`, `results` | string functions of the Go library, options and results |

## Conventions

Code that changes state is a class or a method with a loop. Its `ensures` equates the new
state with a function of the old one, and the properties are lemmas about that function. A
protocol is a total function `Do` on states and steps. A step that is not possible changes
nothing, and what the environment chooses (a reply, a clock reading, a crash, the outcome of
a write or of a command) is part of the step. `Run` folds a list of steps, so a theorem about
`Run` holds for every interleaving.

SHA-256 over JSON is a parameter, injective only where a lemma says so. Workspace resolution,
unreadable files and file hashes are parameters of a transaction. A command may change any
file and ends with any exit code. Times are integers that never decrease.

## Where the code falls short of what it sets out to do

The plan in docs/superpowers sets out that an approved plan reaches the runner exactly once.
These are theorems about the code as it is.

* `Begin` on an id that already has a response returns success without a claim. A second call
  that looked before the first completed then performs the plan again
  (`OverlappingCallsEnterTwice`, and `TwiceFromTheStart` for a run from the empty system). A
  plan enters the effect phase at most once exactly when no call took that branch
  (`AtMostOncePerTask`), and none does when calls with one request id are served one after
  another (`AtMostOnceEndToEnd`).
* The row of a new task holds no plan. When the council restarts while a task is in DRAFT, the
  task's plan loses its version, and without a council to deliberate the runner accepts what is
  submitted if and only if there was no such restart (`DraftRestartIsFatal`). With a council the
  versions always agree (`DeliberatedPlansAreComplete`).
* A call with a claim that is refused for its approval leaves its execution row `running`
  (`RefusesExactly`), and so does a runner that dies while the row is. Over every run these two
  steps, and no others, block a request id (`WhatSticks`). It is then blocked for good: through
  every continuation, restarts included, it is never performed again and never finishes, and its
  task never succeeds (`StuckForGood`).
* A runner that dies between two writes of a transaction leaves the files as the transaction of
  the plan's first patches would (`DeathLeavesFirstPatches`); nothing undoes them.
* The diff interpreter panics exactly on a diff of one line that begins with `---`
  (`PanicsExactly`). Nothing recovers the panic, so it ends the runner's process. No file has
  changed (`ServedEndsExactly`), and the request id is blocked for good exactly when the call held
  the claim on it (`PanicSticks`); a call that got past Begin without one has a completed row.
* A hunk start that is no number is read as 0, like a start of zero (`StartIsZero`), and the body
  is then applied wherever the cursor stands (`OpensAtCursor`).
* A client of the event stream that is answered from memory when the log cannot be read keeps a
  prefix of the log exactly when what is remembered begins no later than one past its cursor;
  otherwise it loses the events in between for good (`FallbackContinues`, `ReaderHasPrefix`).
* A plan whose version or timeout does not fit 32 bits, or with a command whose argument list
  is empty but not nil, can be approved but never runs (`RunnerAcceptsExactly`).
* A second approval whose row cannot be saved has already invalidated the first, and the task
  still counts as approved (`LostApprovalBlocksExecution`).
* Applying a printed script and then its printed reverse gives back the file unless the text in
  between is a single empty line, which reads back as no lines (`PrintedReverseUndoes`). An
  inserted line that ends in a carriage return loses it (`PrintedScriptApplies`).

## Model

| member | source | states |
|---|---|---|
| `UnifiedDiff.ApplyUnifiedDiff` | internal/runner/files/transaction.go:126-191 | For every text and diff the loops give the result, or the error, that reading the diff as a list of instructions gives; the scan terminates |
| `UnifiedDiff.Interpret` | internal/runner/files/transaction.go:137-185 | The outer loop feeds all remaining instructions to the cursor, skipping everything outside hunks |
| `UnifiedDiff.InterpretHunk` | internal/runner/files/transaction.go:146-184 | One header and the body up to the next header: an invalid header is an error, otherwise lines before the start are copied first |
| `UnifiedDiff.InterpretBody` | internal/runner/files/transaction.go:158-184 | The inner loop stops at the next header or at the end and has fed exactly the lines in between |
| `UnifiedDiff.InterpretLine` | internal/runner/files/transaction.go:159-183 | One body line: context and removal must equal the old line, blank lines, the no-newline marker and unknown letters change nothing |
| `UnifiedDiff.CopyUpTo` | internal/runner/files/transaction.go:153-156 | Copies old lines up to the hunk start or the end of the file, and never moves back |
| `UnifiedDiff.DecodeOfEncode` | internal/runner/files/transaction.go:132-135 | Encoding lines and decoding them gives them back exactly when they are not the single empty line |
| `UnifiedDiff.EncodeOfDecode` | internal/runner/files/transaction.go:190-190 | Decoding a text and encoding it gives the text back exactly when it ends in a newline, and otherwise the text with one newline more |
| `UnifiedDiff.PanicsExactly` | internal/runner/files/transaction.go:127-130 | For every text and diff the interpreter slices out of range if and only if the diff is a single line that begins with three dashes |
| `UnifiedDiff.StartIsRead` | internal/runner/files/transaction.go:146-152 | Every header with three fields is read as the number of its second field, without a leading dash and up to the first comma if there is one |
| `UnifiedDiff.StartOfNumber` | internal/runner/files/transaction.go:146-152 | A header whose second field is a dash and a number within int64, alone or followed by a comma and anything, is read as that number |
| `UnifiedDiff.StartIsZero` | internal/runner/files/transaction.go:146-152 | A header is read as start 0 exactly when it has three fields and the text of its start has no digits, something else after digits still in range, or only zeros |
| `UnifiedDiff.OpensAtCursor` | internal/runner/files/transaction.go:153-156 | The body after a header is applied at the cursor exactly when the start lies no further than the next old line or none is left; always for a start of 0 |
| `UnifiedDiff.AlignmentSides` | internal/runner/files/transaction.go:137-189 | From any cursor, the alignment an accepted diff describes has the remaining old lines on one side and the remaining output on the other, and spells out the diff's body lines |
| `UnifiedDiff.AcceptedDiffIsAnAlignment` | internal/runner/files/transaction.go:126-191 | For every accepted diff: the old lines split in order into kept and removed, removed and context lines equal the old ones, kept lines are a subsequence of both files, and the output has old minus removals plus insertions many lines |
| `DiffReading.NoiseIsIgnored` | internal/runner/files/transaction.go:159-183 | A blank line, a no-newline marker or a line with another first letter changes nothing, wherever in the diff it stands |
| `DiffReading.PreambleIsIgnored` | internal/runner/files/transaction.go:140-145 | Lines in front of the first hunk header change nothing |
| `DiffReading.FileHeadersAreDropped` | internal/runner/files/transaction.go:126-131 | A pair of file headers in front of a diff that has none changes nothing |
| `DiffReading.RefusedExactly` | internal/runner/files/transaction.go:137-185 | For every diff: it is refused, and as what, exactly when the lines before some line are accepted and that line is a header with fewer than three fields, or a context or removal line that differs from the old line at the cursor |
| `DiffRoundTrip.PrintedScriptApplies` | internal/runner/files/transaction.go:126-191 | For every text and every script that fits its lines, whether or not the printer leaves out counts of one: printing and applying succeeds with the script's new lines exactly when no kept, removed or inserted line ends in a carriage return |
| `DiffRoundTrip.EncodedLinesRoundTrip` | internal/runner/files/transaction.go:126-191 | For every ordered script without trailing carriage returns on encoded old lines: the printed script gives exactly the encoded new lines if and only if the old lines are not the single empty line or the script has no lines |
| `DiffRoundTrip.PrintedReverseUndoes` | internal/runner/files/transaction.go:126-191 | The printed script followed by the printed reversed script returns the encoded old lines if and only if the lines in between are not the single empty line |
| `DiffRoundTrip.EmptyDiffTerminates` | internal/runner/files/transaction.go:186-190 | The empty diff is the identity on newline-terminated text and appends one newline to any other |
| `Text.SplitOfJoin` | internal/runner/files/transaction.go:132-132 | Splitting joined lines at newlines gives the lines back |
| `Text.JoinOfSplit` | internal/runner/files/transaction.go:190-190 | Joining the pieces of a text gives the text back |
| `Text.DropCrOfUnlines` | internal/runner/files/transaction.go:127-127 | Replacing CR LF by LF strips exactly one trailing carriage return from each printed line |
| `Text.FieldsFirst` | internal/runner/files/transaction.go:146-146 | Fields splits off a first word at white space |
| `Text.AtoiOfDec` | internal/runner/files/transaction.go:152-152 | A printed hunk start is read back as the same number |
| `Text.ScanIs` | internal/runner/files/transaction.go:152-152 | The digit loop of Atoi ends with the value, with a syntax error at the first other character, or with the largest value when the digits before it exceed 64 bits |
| `Text.AtoiIs` | internal/runner/files/transaction.go:152-152 | With its error ignored, Atoi gives 0 for what is no number and else the int64 nearest to the value of the digits with their sign |
| `Text.AtoiIsZero` | internal/runner/files/transaction.go:152-152 | With its error ignored, Atoi gives 0 exactly for what is no number and for zeros |
| `Text.DecInjective` | internal/transport/council/routes.go:216-216 | Different numbers give different ids |
| `FileTransaction.Disk.ReplaceFile` | internal/runner/files/transaction.go:101-124 | The file has the new content and mode, or nothing changed and the call failed |
| `FileTransaction.Disk.Remove` | internal/runner/files/transaction.go:89-93 | The file is gone, a missing file counting as removed, or nothing changed and the call failed |
| `FileTransaction.Transaction.Apply` | internal/runner/files/transaction.go:38-83 | Disk, snapshots and result are those of the specified transaction: prepare all, then write in order, then on a failed write undo |
| `FileTransaction.Transaction.ReadAndCompute` | internal/runner/files/transaction.go:40-72 | No file is written while patches are prepared; the first patch that cannot be prepared decides the error, and the snapshots are those of the patches before it |
| `FileTransaction.Transaction.PrepareOne` | internal/runner/files/transaction.go:46-71 | The order of refusals for one patch: path, unreadable file, changed file, diff; otherwise output, mode and snapshot |
| `FileTransaction.Transaction.Restore` | internal/runner/files/transaction.go:84-100 | Every snapshot is put back, last first, going on after a failure, and the answer is whether all steps succeeded |
| `FileTransaction.UndoRestores` | internal/runner/files/transaction.go:85-100 | Whatever happened to the files, a restore without a failed step brings every recorded path back to what the snapshots record, with duplicate paths too, and never touches another path |
| `FileTransaction.WritesLand` | internal/runner/files/transaction.go:73-82 | After all writes succeeded a path holds its last write, and a path without a write is as before |
| `FileTransaction.ApplyWritesEveryPatch` | internal/runner/files/transaction.go:38-83 | Success leaves at every path the output of the last patch for it, each output computed from the files before the transaction, and nothing else changed |
| `FileTransaction.ApplyIsAllOrNothing` | internal/runner/files/transaction.go:38-100 | An error other than a failed rollback leaves every file's existence, content and mode unchanged, with duplicate paths and a write failing at any index; a failed rollback touches no path the patches do not name |
| `FileTransaction.FirstWrites` | internal/runner/files/transaction.go:73-81 | A prepared transaction stopped after its first n writes, all successful, leaves the disk that the transaction of its first n patches leaves |
| `FileTransaction.ApplyPanics` | internal/runner/files/transaction.go:45-72 | A transaction panics exactly when the first patch that cannot be prepared has a lone file header for its diff and nothing refuses it before, and then nothing was written |
| `TransactionOutcome.SucceedsExactly` | internal/runner/files/transaction.go:38-83 | A transaction succeeds if and only if every patch's path resolves and is readable, its before-hash is empty or the hash of the file before the transaction, its diff applies, and none of the writes fails |
| `TransactionOutcome.FailsExactly` | internal/runner/files/transaction.go:45-83 | Each error before writing is, by its cause, that of the first patch that is hindered, and leaves the disk as it was; a write or rollback error comes exactly when no patch is hindered and a write fails |
| `TransactionOutcome.RollbackNeedsTwoFaults` | internal/runner/files/transaction.go:73-81 | A rollback fails only when a second operation on the disk fails after the write that failed |
| `TransactionOutcome.RestoresAllButFaults` | internal/runner/files/transaction.go:84-101 | A restore goes on after a step that fails: no more recorded paths are left unrestored than operations on the disk fail |
| `Approval.VerifyBinds` | internal/approval/snapshot.go:21-54 | With an injective hash an approval is accepted for exactly one run, one workspace and one executable plan, nil and empty lists and recovery notes aside |
| `Wire.Int32` | internal/transport/council/routes.go:462-462 | The conversion to int32: in range and congruent modulo 2^32 |
| `Wire.BuildRequest` | internal/transport/council/routes.go:462-471 | The loops fill the request with the plan's patches, commands and verification commands in order |
| `Wire.RebuildPlan` | internal/runner/grpc/service.go:114-132 | The loops rebuild the plan from the request, with non-nil patches, commands and acceptance |
| `Wire.CommandsSurvive` | internal/runner/grpc/service.go:121-126 | Commands come back unchanged exactly when every timeout fits 32 bits and no argument list is empty without being nil |
| `Wire.ApprovalSurvivesTheWire` | internal/runner/grpc/service.go:114-135 | The runner accepts the council's own approval of a plan exactly when the task's version is the plan's, fits 32 bits, and every command survives |
| `Idempotency.Store.Lookup` | internal/runner/idempotency/store.go:26-41 | A remembered response, from memory or from a completed row, which memory then keeps; nothing else changes |
| `Idempotency.Store.Claim` | internal/runner/idempotency/store.go:42-73 | Success without a claim on a completed id, refusal on a claimed one, otherwise a new row and a claim unless another process inserted a row in between |
| `Idempotency.Store.EndClaim` | internal/runner/idempotency/store.go:72-72 | Ends the claim in memory and leaves the table alone |
| `Idempotency.Store.Record` | internal/runner/idempotency/store.go:74-84 | Ends the claim and stores the response in memory and in the row |
| `Idempotency.AtMostOneClaimEver` | internal/runner/idempotency/store.go:42-84 | With a shared table, over any number of processes, interleavings of Get, the halves of Begin, release and Complete, and crashes, at most one Begin per id ever installs a claim |
| `Idempotency.OneLiveClaimInMemory` | internal/runner/idempotency/store.go:42-84 | Without a table the running set of every process is exactly the ids of its live claims, in both directions, with one holder each, and an id with a response has none |
| `Idempotency.NoClaimAfterComplete` | internal/runner/idempotency/store.go:45-47 | Without a table, a process that holds a response keeps it and installs no further claim on its id |
| `RunnerService.Service.ExecuteApprovedPlan` | internal/runner/grpc/service.go:102-176 | Memory, table, disk and reply after a call are those of the specified call, on every path: refused, remembered, in progress, not approved, performed |
| `RunnerService.Service.Serve` | internal/runner/grpc/service.go:109-175 | The part after Begin, with the deferred release on every path |
| `RunnerService.Service.PerformEffects` | internal/runner/grpc/service.go:136-173 | The effect phase: patches, commands, verification commands, restore on failure, and the response's status, code and steps |
| `RunnerService.Service.RunCommands` | internal/runner/grpc/service.go:151-170 | Commands run in order on the files the previous ones left, until the first that fails |
| `RunnerService.FailedExecutionRestores` | internal/runner/grpc/service.go:137-175 | Whatever the commands did, after a FAILED response whose code lacks the rollback prefix every patched path has the existence, content and mode it had before the call |
| `RunnerService.RunAllSteps` | internal/runner/grpc/service.go:151-170 | One SUCCEEDED step per command in order, or the steps stop at the first command that failed |
| `RunnerService.SucceededRanEverything` | internal/runner/grpc/service.go:137-175 | SUCCEEDED means one SUCCEEDED step per command and then per verification command, in order; FAILED means no step and a patch failed, or steps up to the first command that failed, which the error code names |
| `EffectOutcome.EffectsExactly` | internal/runner/grpc/service.go:136-175 | The response is SUCCEEDED if and only if the transaction succeeded and every command and then every verification command, each on the files the one before left, could be run, did not time out and exited with 0; the files are then those the last one left. A FAILED response has no step when the transaction failed, and else one per command up to the first that was not so, which the code names; every step tells kind, name, exit code and status of its command |
| `EffectOutcome.MarkExactly` | internal/runner/grpc/service.go:141-168 | The code of a FAILED response bears the mark of a failed rollback if and only if undoing the patches failed, after a failed write or on the files the failed command left |
| `RunnerService.AnswersAreRemembered` | internal/runner/grpc/service.go:106-175 | A fresh answer belongs to a plan whose approval was verified and is stored, and the same call again gives it once more and changes nothing |
| `RunnerService.EffectsPanic` | internal/runner/grpc/service.go:136-150 | The effect phase panics exactly on a plan whose transaction panics, and has changed nothing then |
| `RunnerService.RepliesExactly` | internal/runner/grpc/service.go:102-176 | The answer of every call whose lookup and Begin no other call of its process separates: the response held in memory or in a completed row; in progress exactly when the id is running in memory or has, or gets in time, a row; refused when the hash does not match; else, but for a panic, the effect phase's. Only an effect phase changes the disk |
| `RunnerService.ClaimEndsWithCall` | internal/runner/grpc/service.go:113-113 | A call with a claim leaves no claim behind, whatever it is answered; without a table the next call with the id of a refused one is served like a first one |
| `RunnerService.ServedEndsExactly` | internal/runner/grpc/service.go:109-150 | From Begin on, with a claim or without and whatever other calls did since the lookup: a panic exactly when Begin lets the call on, its approval is verified and its plan panics; a refusal exactly when Begin lets it on and the hash does not match; disk and table stay as they were |
| `RunnerService.CrashesExactly` | internal/runner/grpc/service.go:102-150 | A call whose lookup and Begin no other call of its process separates ends in a panic exactly when it has a claim, its approval is verified and its plan panics; it has changed no file and its row is left running |
| `RunnerService.RefusesExactly` | internal/runner/grpc/service.go:109-135 | A call whose lookup and Begin no other call of its process separates is refused for its approval exactly when it has a claim and the hash does not match; it has changed no file and its row is left running |
| `RunnerService.RunningRowBlocks` | internal/runner/idempotency/store.go:48-57 | Whoever asks for an id whose row is running, without a remembered response, is told that it is in progress, and nothing changes |
| `RunnerService.RefusedApprovalBlocks` | internal/runner/grpc/service.go:109-135 | After a call refused for its approval the next call with the id, by whatever process without a remembered response, is refused as in progress |
| `Approvals.ApprovalRepository.Save` | internal/storage/sqlite/approval_repository.go:26-28 | Inserts the row, or fails on a taken id and changes nothing |
| `Approvals.ApprovalRepository.InvalidateRun` | internal/storage/sqlite/approval_repository.go:34-37 | Row by row: those of the run are invalidated and the others unchanged, no row comes or goes, and no other table changes |
| `Approvals.ApprovalRepository.Consume` | internal/storage/sqlite/approval_repository.go:42-48 | Row by row: the active matching ones are consumed and the others unchanged, no row comes or goes, and the answer is whether there was such a row and no other |
| `Approvals.ApprovalRepository.ConsumeAndMarkExecuting` | internal/storage/sqlite/approval_repository.go:53-80 | Both tables after the transaction and its rollbacks are those of the one-step form |
| `Approvals.ConsumingUsesUp` | internal/storage/sqlite/approval_repository.go:42-48 | After consuming, nothing is active any more |
| `Approvals.ConsumeAndStartIsAtomic` | internal/storage/sqlite/approval_repository.go:50-80 | The answer is true if and only if exactly one approval row is active and the task's row is AWAITING_APPROVAL, approved, with this version and hash; then that row is consumed and exactly this task goes to EXECUTING, and otherwise neither table changes |
| `CouncilApi.Api.constructor` | internal/transport/council/routes.go:102-143 | Memory is rebuilt from the rows, a verification without a request id is none, and the id counter is the largest number in any id |
| `CouncilApi.Api.LargestOf` | internal/transport/council/routes.go:132-141 | The loop finds the largest of the ids and the start |
| `CouncilApi.Api.PersistTask` | internal/transport/council/routes.go:544-552 | Writes every column of an existing row but the workspace, and inserts none |
| `CouncilApi.Api.CreateTask` | internal/transport/council/routes.go:203-228 | Refuses a missing acceptance or an unknown workspace; otherwise a new DRAFT task whose row holds no plan |
| `CouncilApi.Api.BeginStart` | internal/transport/council/routes.go:282-293 | Only a DRAFT task moves to ANALYZING, in memory and in its row |
| `CouncilApi.Api.Transition` | internal/transport/council/routes.go:554-560 | Sets the state in memory and in the row |
| `CouncilApi.Api.FailStart` | internal/transport/council/routes.go:309-315 | A deliberation error fails the task in whatever state it is |
| `CouncilApi.Api.FinishStart` | internal/transport/council/routes.go:320-347 | Only from DRAFT or ANALYZING: version and acceptance of the plan and the task are reconciled, the hash taken and the task submitted for approval |
| `CouncilApi.Api.ApproveTask` | internal/transport/council/routes.go:349-391 | The checks and their codes, then old rows invalidated, a new row saved and the task approved; a failed save leaves the old rows invalidated |
| `CouncilApi.Api.StopTask` | internal/transport/council/routes.go:392-405 | Reject and cancel make any task CANCELLED and not approved |
| `CouncilApi.Api.ExecuteTask` | internal/transport/council/routes.go:418-516 | The codes, the consumed row, the request sent, and the task after a lost, missing, failed or successful reply |
| `HandlerAnswers.ExecuteAnswers` | internal/transport/council/routes.go:418-460 | In every reachable state the runner is called exactly for an EXECUTING task or for an approved waiting one with its one active row; a refusal changes nothing |
| `HandlerAnswers.LostReplyIsResumable` | internal/transport/council/routes.go:426-477 | After a lost reply the task is EXECUTING; executing it again needs no approval, changes nothing and sends the same request |
| `HandlerAnswers.ExecuteOutcomes` | internal/transport/council/routes.go:472-515 | SUCCEEDED, EXECUTING or FAILED exactly by the reply being successful, lost or anything else, the verification kept only with success, and the row equal to memory |
| `CouncilProtocol.StepKeeps` | internal/transport/council/routes.go:203-530 | Every step of the council process, crashes between lock sections included, keeps the invariant: rows agree with memory, approved tasks have a completed approve step, at most one row valid and at most one consumed per task, requests carry accepted plans; and only moves tasks onward |
| `CouncilProtocol.StepKeepsRows` | internal/storage/sqlite/approval_repository.go:26-80 | No step deletes an approval row, makes a consumed one unconsumed or an invalidated one valid |
| `CouncilProtocol.RestartKeeps` | internal/transport/council/routes.go:102-143 | A restart at any point keeps the invariant, and moves no task back |
| `CouncilProtocol.ConsumeKeepsRows` | internal/transport/council/routes.go:443-453 | The row consumed at the start of an execution is the task's first, because the task was still awaiting approval |
| `RunnerProtocol.StepKeepsInv` | internal/runner/grpc/service.go:102-176 | Every step of every call, in any interleaving with other calls and crashes, keeps: at most one claimed entry per id, completed rows and remembered responses come from a finished effect phase of that id, replies match their request |
| `RunnerProtocol.AtMostOnceExactly` | internal/runner/idempotency/store.go:42-73 | In every such state an id entered the effect phase at most once exactly when no call entered through the completed branch of Begin |
| `RunnerProtocol.TurnsKeepSerial` | internal/runner/grpc/service.go:102-176 | While same-id calls are served one after another, no call reaches the completed branch of Begin |
| `RunnerProtocol.StuckStays` | internal/runner/idempotency/store.go:42-73 | Once an id's row is running and no call is left that could complete it, every step keeps it so, logs nothing for it and answers nothing for it |
| `RunnerProtocol.RefusalSticks` | internal/runner/grpc/service.go:133-135 | A refused approval after a claim brings its id into that state |
| `RunnerProtocol.CrashSticks` | internal/runner/idempotency/store.go:54-57 | The death of the process brings every id whose row is running into it |
| `RunnerProtocol.StuckExactly` | internal/runner/grpc/service.go:102-176 | Every step, in every such state: it brings an id into that state if and only if it is the process's death while the id's row is running, or the refusal of a call that holds the id's claim |
| `RunnerProtocol.DeathInEffects` | internal/runner/idempotency/store.go:42-73 | When the process dies with a call in its effect phase, the call's id is stuck exactly when the call holds the claim |
| `Lifecycle.Reachable` | internal/transport/council/routes.go:418-516 | Every reachable state of council and runner together satisfies both invariants, and a VERIFYING or SUCCEEDED task holds a SUCCEEDED response the runner finished for its request id |
| `LifecycleSafety.RequestIdOf` | internal/transport/council/routes.go:462-462 | A request id names exactly one task, whatever the version |
| `LifecycleSafety.EntriesAreTheIds` | internal/transport/council/routes.go:462-462 | All entries of a task's plan into the effect phase are under the one request id of its present version |
| `LifecycleSafety.AtMostOncePerTask` | internal/runner/grpc/service.go:102-176 | Over every run a task's plan enters the effect phase at most once if and only if no call entered it through Begin's success without a claim |
| `LifecycleSafety.AtMostOnceEndToEnd` | internal/transport/council/routes.go:418-516 | Over every run with same-id calls served in turn: at most one entry per task, and a task recorded SUCCEEDED entered exactly once and holds the SUCCEEDED response of its only effect phase |
| `LifecycleSafety.SucceededWasClaimedOnce` | internal/transport/council/routes.go:496-511 | Over every run, overlapping calls included, a SUCCEEDED task entered exactly once under a claim and holds a response the runner finished |
| `LifecycleSafety.RequestsCarryAcceptedPlans` | internal/transport/council/routes.go:240-471 | In every reachable state each request carries exactly a plan accepted by an approve step completed before it was sent, under the hash of run, workspace and plan, and that is still the task's plan |
| `LifecycleSafety.OnlyAcceptedPlansEnter` | internal/runner/grpc/service.go:114-137 | What enters the effect phase is, field by field, a plan an approve step accepted for that run and workspace |
| `LifecycleSafety.NothingGoesBack` | internal/transport/council/routes.go:240-530 | Between any two moments of a run: past ANALYZING plan, version and hash are fixed, AWAITING_APPROVAL is not entered again, CANCELLED, FAILED and SUCCEEDED form a closed set, and no request is sent for a task in it |
| `LifecycleSafety.ConsumedOnce` | internal/storage/sqlite/approval_repository.go:34-80 | Over any run at most one approval row of a task is ever consumed |
| `LifecycleSafety.ActiveOnce` | internal/storage/sqlite/approval_repository.go:34-80 | In every reachable state at most one approval row of a task is active |
| `LifecycleSafety.RunnerAcceptsExactly` | internal/runner/grpc/service.go:133-135 | The runner's check passes on the request of a submitted task exactly when the versions agree and the plan survives the wire |
| `LifecycleSafety.DeliberatedPlansAreComplete` | internal/transport/council/routes.go:326-336 | With a council that deliberates, a submitted plan always has the task's version and at least one acceptance criterion, restarts included |
| `LifecycleSafety.ExecutionSpentItsApproval` | internal/transport/council/routes.go:443-453 | In every reachable state a task that is EXECUTING or further has a consumed approval row of exactly its plan version and hash, and an approve step for exactly its plan was completed |
| `LifecycleSafety.StuckForGood` | internal/runner/idempotency/store.go:42-73 | Over every continuation of every run, restarts of both processes included, a stuck request id keeps its number of entries, never finishes, and its task is never VERIFYING or SUCCEEDED |
| `LifecycleSafety.WhatSticks` | internal/runner/grpc/service.go:102-176 | Over every run: a request id is stuck if and only if at some step the runner died while the id's row was running, or refused the approval of a call that held the claim on the id |
| `Deliberation.FinishAnswers` | internal/transport/council/routes.go:320-347 | Code 200 exactly for a task in DRAFT or ANALYZING: field by field its plan is then the deliberation's, with the task's version when that has none and the task's criteria when it has none, or its own plan without a deliberation; it waits for approval under the hash of run, workspace and that plan, and is otherwise as it was. Any other answer changes nothing |
| `Deliberation.NewByStep` | internal/transport/council/routes.go:203-227 | A task comes into being exactly by a create step with criteria and a known workspace, under the next id, in DRAFT with version 1 |
| `Deliberation.TaskHistory` | internal/transport/council/routes.go:203-347 | With a council that deliberates, over every run, restarts included: a task's workspace and criteria are those it was created with, a task that waits for approval or is further was submitted by its deliberation, and a submitted task holds what that returned, with the two repairs |
| `Deliberation.RequestsCarryDeliberatedPlans` | internal/transport/council/routes.go:326-471 | With a council that deliberates, over every run: every request carries, field by field, the patches, commands, verification commands, version and criteria the task's deliberation returned, with version 1 and the criteria the task was created with where it returned none, for the workspace the task was created in |
| `Deliberation.StartedTaskWaits` | internal/transport/council/routes.go:280-347 | From every reachable state a task in DRAFT can be started, and waits for approval with the plan its deliberation returns |
| `Deliberation.FailedDeliberationFails` | internal/transport/council/routes.go:309-318 | From every reachable state a deliberation that fails leaves its task FAILED, in memory and in its row |
| `Stopping.StoppedForGood` | internal/transport/council/routes.go:393-530 | Stopping takes effect in every state of the task: over every continuation, restarts included, it stays CANCELLED or, by its deliberation failing, FAILED, its row agrees, and no request for it is sent |
| `DraftRestart.DraftPlan` | internal/transport/council/routes.go:217-223 | In every reachable state a DRAFT task has the plan it was made with exactly until the council was restarted since, and its row has none |
| `DraftRestart.DraftRestartIsFatal` | internal/transport/council/routes.go:217-345 | Without a council, for every run and every DRAFT task: what starting it submits is accepted by the runner if and only if the council was not restarted since the task was created |
| `DiskLifecycle.SucceededReachedTheDisk` | internal/runner/grpc/service.go:136-175 | Over every run, whatever else happens to the disk: for a SUCCEEDED task an effect phase found every file of the task's own plan with the hash the plan names, applied the patches as one transaction, ran every command and verification command, each on the files the one before left, without an error or a timeout and with exit code 0, left the files of the last one, and gave the response the task holds |
| `DiskLifecycle.PerformedAtMostOnce` | internal/runner/grpc/service.go:102-176 | With same-id calls served in turn at most one effect phase of a task ever ended |
| `DiskLifecycle.FailedLeftNoTrace` | internal/runner/grpc/service.go:137-175 | Over every run: each effect phase that answered FAILED without the rollback prefix left every path its plan patches with the existence, content and mode it found |
| `DiskLifecycle.PanicSticks` | internal/runner/grpc/service.go:137-150 | In every reachable state: a plan that panics ends the runner's process before any file changed, and its request id is stuck exactly when the call holds the claim on it |
| `DiskLifecycle.DeathLeavesFirstPatches` | internal/runner/files/transaction.go:73-81 | In every reachable state: a runner that dies between two writes leaves the disk of a successful transaction of the plan's first patches and every unpatched path as it was, and the request id is stuck exactly when the call holds the claim on it |
| `LifecycleExamples.OverlappingCallsEnterTwice` | internal/runner/idempotency/store.go:45-47 | From every reachable state with a quiet runner, any sent request the runner accepts, delivered twice with overlapping calls, makes its task enter the effect phase twice |
| `LifecycleExamples.TwiceFromTheStart` | internal/runner/idempotency/store.go:45-47 | From the empty system there is a run in which the plan of one task enters the effect phase twice |
| `LifecycleExamples.ApprovingActivatesOneRow` | internal/transport/council/routes.go:371-380 | After approving exactly one row of the task is active, whatever rows there were |
| `LifecycleExamples.ApprovedTaskSucceeds` | internal/transport/council/routes.go:349-516 | From any reachable state, approving a waiting task with its version and hash and executing it with a SUCCEEDED answer ends in SUCCEEDED with that answer, the row consumed and the task row equal to memory |
| `LifecycleExamples.ApproveDecides` | internal/transport/council/routes.go:349-391 | In every reachable state: 200 exactly when the approval names version and hash of the plan the task waits with and its row can be saved, and then executing is possible; 500 exactly when the row cannot be saved, and then it is not; any other answer changes nothing |
| `LifecycleExamples.LostApprovalBlocksExecution` | internal/transport/council/routes.go:371-380 | When the new approval row cannot be saved, executing is refused even if the task was approved before |
| `Refinement.ApproveIsItsSteps` | internal/transport/council/routes.go:349-391 | The three steps of an approval in a row are the handler; exactly when it answers 200 they record the acceptance of the task's plan under the version and hash the request named, and they change nothing else |
| `Refinement.ExecuteIsItsSteps` | internal/transport/council/routes.go:418-516 | The steps of an execution in a row are the handler, for every outcome of the call, and send exactly its request |
| `Refinement.CallIsItsSteps` | internal/runner/grpc/service.go:102-176 | A runner call that nothing interferes with does in steps what the RPC does to memory, table and reply, whether refused, answered from the store or performed |
| `Limiter.LoginLimiter.PruneFailures` | internal/transport/council/rbac_routes.go:321-336 | Reusing the buffer keeps exactly the attempts inside the last minute in their order, and drops an empty list |
| `Limiter.LoginLimiter.PruneAllFailures` | internal/transport/council/rbac_routes.go:337-341 | Every tracked address is pruned once, in whatever order, at its own later reading of the clock |
| `Limiter.LoginLimiter.LimiterClients` | internal/transport/council/rbac_routes.go:343-351 | The loop counts the addresses with failures or reservations, each once |
| `Limiter.LoginLimiter.AdmitLoginAttempt` | internal/transport/council/rbac_routes.go:293-305 | Prunes, then admits or refuses, with readings taken during the call |
| `Limiter.LoginLimiter.TakePlace` | internal/transport/council/rbac_routes.go:297-304 | Refuses a new address at the client limit and any address with five places taken, else reserves one |
| `Limiter.LoginLimiter.CompleteLoginAttempt` | internal/transport/council/rbac_routes.go:306-320 | Prunes, returns the reservation, and records the failure at the present time or forgets the address's failures |
| `LimiterHistory.CapacityIsKept` | internal/transport/council/rbac_routes.go:293-351 | In every reachable state an address has at most five failures and reservations together, its reservations are its attempts under way, no entry is empty, and at most 1024 addresses are tracked |
| `LimiterHistory.RecentIsSuffix` | internal/transport/council/rbac_routes.go:321-336 | On attempts in order pruning drops exactly a first part, all of it a minute old |
| `LimiterHistory.RecordIsKept` | internal/transport/council/rbac_routes.go:306-341 | At every moment the record of an address is its failures since the last success but for those a minute old, and each failure is a minute after the fifth before it |
| `LimiterHistory.SlidingWindow` | internal/transport/council/rbac_routes.go:293-341 | Under every interleaving, six failed completions of one address without a success between the first and the last span at least a minute |
| `LimiterAdmission.AdmittedExactly` | internal/transport/council/rbac_routes.go:293-305 | After every run of attempts and completions: an attempt is let in if and only if its address takes fewer than five places, its failures since its last success inside the minute before its reading and its open attempts together, and takes one already or fewer than 1024 addresses do |
| `Alias.ProposalAlias` | internal/council/anonymize.go:3-15 | The loop spells the word of the index, and a negative index has none |
| `Alias.NumberOfWord` | internal/council/anonymize.go:7-14 | Words consist of A to Z, and a decoder finds the number of each |
| `Alias.WordOfNumber` | internal/council/anonymize.go:7-14 | Every string of A to Z is the word of its number |
| `Alias.AliasIsABijection` | internal/council/anonymize.go:3-15 | Aliases and indices correspond one to one, and every nonempty word of A to Z is in use |
| `Alias.IndexOrderIsShortlex` | internal/council/anonymize.go:3-15 | One index is smaller than another exactly when its word comes first in shortlex order |
| `Review.Reviewing.ReportError` | internal/council/engine.go:118-122 | Only the first error is kept |
| `Review.Reviewing.AddReview` | internal/council/engine.go:152-155 | Adds one result under the reviewer's seat id and the proposal's alias |
| `Review.Reviewing.Work` | internal/council/engine.go:114-157 | A worker's loop does exactly the worker's actions on the shared state, stopping at its first error |
| `Review.ReviewAll` | internal/council/engine.go:101-164 | Empty inputs are an error; otherwise the outcome is that of a complete schedule: its first error, or for each addition, in order, the body the model answered, under the reviewer's seat and the proposal's alias |
| `Review.FirstErrorIsAWorkers` | internal/council/engine.go:110-147 | For every schedule the first error is that of a worker: its provider is missing, or it is the error of the first call, going round from its own place, that gives no review |
| `Review.RotationSpreads` | internal/council/engine.go:125-126 | At any one offset no two of the first reviewers, one per proposal, are at the same proposal |
| `Review.WorkerCoverage` | internal/council/engine.go:114-157 | A worker reports an error exactly when its provider is missing or one of its calls gives no review, and otherwise adds each proposal of another seat exactly once |
| `Review.ReviewCoverage` | internal/council/engine.go:101-163 | For every schedule of the workers: no error exactly when every worker can do its calls, and then every reviewer has reviewed each proposal with another seat id exactly once and none with its own |
| `Review.SchedulesAgree` | internal/council/engine.go:101-163 | The results as a multiset, and whether there is an error, are the same for every schedule |
| `Review.AliasNamesProposal` | internal/council/engine.go:126-152 | Two reviews with the same alias are of the same proposal |
| `RunState.MovesAre` | internal/core/runstate/state.go:21-41 | A move goes to the next stage, back from the red team to judging, or through replanning to the reviews; it cancels anything not ended, and fails anything not ended but DRAFT and AWAITING_APPROVAL; there are no others |
| `RunState.ApprovalPrecedesExecution` | internal/core/runstate/state.go:21-41 | In every walk from DRAFT each EXECUTING directly follows its own AWAITING_APPROVAL, each SUCCEEDED ends AWAITING_APPROVAL, EXECUTING, VERIFYING, and a terminal state is the last |
| `RunLog.RunRepository.Create` | internal/storage/sqlite/run_repository.go:33-49 | Inserts run and first audit row, or neither |
| `RunLog.RunRepository.Transition` | internal/storage/sqlite/run_repository.go:51-82 | A refused read changes nothing; otherwise the outcome is that of the version-checked update on whatever others have written since the read |
| `RunLog.RunRepository.Load` | internal/storage/sqlite/run_repository.go:84-111 | The run and exactly its audit rows, in sequence order |
| `RunLog.MovesExactly` | internal/storage/sqlite/run_repository.go:51-82 | In every reachable state a writer's update succeeds exactly when the run's version is the one it read, sets state, version and an audit row with the move's author, and otherwise changes nothing; its audit row is always free |
| `RunLog.MovesAlone` | internal/storage/sqlite/run_repository.go:51-82 | Undisturbed, a transition succeeds exactly when the run exists and the table allows the move |
| `RunLog.CreatesExactly` | internal/storage/sqlite/run_repository.go:33-49 | Creating fails exactly for a run that exists |
| `RunLog.HistoryIsLegal` | internal/storage/sqlite/run_repository.go:33-82 | With any number of writers interleaving reads and updates, a run's audit rows are numbered exactly 1 to its version and the states it had, one per version, are a legal walk that ends in its state |
| `RunLog.RunsAreApproved` | internal/storage/sqlite/run_repository.go:51-82 | A run created in DRAFT that is EXECUTING was approved directly before, and one that is SUCCEEDED was approved, executed and verified directly before, under any interleaving |
| `Ordered.SortedIsAscending` | internal/storage/sqlite/run_repository.go:91-96 | Ordering lists each row once, ascending |
| `EventLog.EventRepository.Append` | internal/storage/sqlite/event_repository.go:29-48 | Adds one row after the run's last sequence and returns it |
| `EventLog.EventRepository.After` | internal/storage/sqlite/event_repository.go:49-62 | The run's rows beyond the cursor, ascending, up to the limit, 100 when the limit is not positive |
| `EventLog.EventRepository.Stream` | internal/transport/council/sse.go:18-46 | What the handler writes: a page of 200 from the log, which the filter leaves whole, or the remembered events beyond the cursor |
| `EventLog.AppendIsContiguous` | internal/storage/sqlite/event_repository.go:35-46 | Appending keeps every run numbered from 1 without a gap |
| `EventLog.PollContinues` | internal/transport/council/sse.go:18-29 | A poll from the last id received begins with the next event and misses none |
| `EventLog.FallbackContinues` | internal/transport/council/sse.go:22-30 | Answered from the remembered events because the log cannot be read, a reader keeps a prefix exactly when nothing is delivered or what is remembered begins no later than one past its cursor |
| `EventLog.ReaderHasPrefix` | internal/transport/council/sse.go:18-45 | With appends to any runs, restarts, any page limits and any disconnect points, every run is numbered from 1, and a reader has received exactly a prefix of its run's log, each event once and in order, if and only if no poll was answered from memory across a gap |
| `EventLog.FullPollAdvances` | internal/transport/council/sse.go:18-45 | For a reader that was never answered across a gap, a poll that is not cut off delivers the whole page, so one that keeps polling catches up |

## Left out

- Deliberations that report progress (internal/transport/council/routes.go:295-303): they move the task out of ANALYZING, so the check at line 322 answers 409 and the task never reaches approval.
- Two council processes on one database: `persistTask` writes whole rows from cached memory, so the lifecycle theorems are for one process with restarts.
- Database operations that fail, apart from a taken approval id and a lost insert race: the handlers ignore or report such errors without further changes.
- An API without a database, and one without a runner client, which answers 503 before anything changes.
- Events appended inside the council's handlers: they change no task, and the event log is modelled by itself.
- Roots, titles, requirements, actors and creation times: they decide nothing in the modelled code. Registering a root a second time returns the first workspace.
- Task rows with an empty state, which a restart reads as DRAFT: no handler writes one.
- `GetExecution` and `Current`: reads that no modelled decision uses.
- Provider adapters, prompts and JSON decoding of replies: a reply is an arbitrary value; a review call gives an error, text that is no review, or a review.
- `Propose`, `Judge`, `RedTeam` and `BuildExecutionPlan`: one call or one check each, with nothing that spans operations.
- Command output and durations in step results, and output limits.
- Role tables, cookies, metrics, the web console, packaging and operating-system services.
- UnifiedDiff.ApplyUnifiedDiff: works on characters, so bytes that are not valid UTF-8 are not represented.
- FileTransaction.Disk.ReplaceFile: one atomic step; temporary files, symbolic links and case-insensitive paths are not represented, and a file's mode is a number restored as recorded.
- RunnerProtocol.StepKeepsInv: the runner has a table and its operations do not fail; the store without a table has its own theorems in Idempotency.
- Review.Reviewing.Work: runs with the lock to itself; interleavings of workers are the schedules of Review.ReviewCoverage.
- RunnerService.Service.ExecuteApprovedPlan: after a panic the original's process ends, while the object keeps its memory; of what such a call leaves only table and disk mean anything. The runner's death is a step of RunnerProtocol and DiskLifecycle.
- DiskLifecycle.DeathLeavesFirstPatches: for a death between writes; what an effect phase had done when the runner died in a command or in the middle of an undo is an arbitrary change of the disk, as commands may change any file.
- DiskLifecycle.SucceededReachedTheDisk: effect phases of different calls follow one another on the disk; what one does to the files while another runs its commands is covered by commands that may change any file, but not writes in the middle of a transaction.
- CouncilApi.Api.StopTask: reject and cancel differ only in the event they append.
