# SecureScan: verified model of the durable scan dispatch

SecureScan accepts a request to scan a target, records it in PostgreSQL, lets a
Ballerina API dispatch it to a Go scanner, and polls the scanner until the
record can be closed. Requests run concurrently, messages get lost or arrive
late, leases expire, the scanner forgets finished jobs and may restart. This
project models that system in Dafny and proves what survives all of it.

`dafny verify dfyconfig.toml` checks the whole project.

## How the model is built

**The protocol.** `DispatchProtocol` is one transition system made of the
committed database, the API's requests (each with a program counter), the
scanner process and the messages between them. A step is one SQL statement or
one committed transaction, one message, or one scanner event. The admission
transaction is split into its lock, its count, its insert and its commit. A
statement carries the time at which its transaction began, so it may take effect
later than the instant it compares leases and expiry dates with. A create call
may be delivered, lose its answer, be answered after the caller has given up, or
be answered in a form the API cannot read; a request may stop at any point; the
scanner may restart at any point. `ProtocolInvariant` states what holds in every
reachable state, the `Protocol*` modules after it show that every step keeps it,
and these state the results over every execution: `ProtocolSafety`;
`ProtocolFirstLease` (what a lease holder has sent); `ProtocolTenure` (what a
lease gives its holder); `ProtocolContact` (when the scanner has accepted a
scan); `ProtocolDials` (what its own validation adds); `ProtocolAnswers` (what a
poll answers, told from its own fetch); `ProtocolOutcomes` (what the row becomes
after what the scanner said); `ProtocolAuthorization` (which committed statement
authorized a dial); `ProtocolEveryPoll` (that polls settle a scan, whatever runs
around them); `ProtocolCounterexamples` (what the system does not promise);
`HistoryPaging`. `ProtocolProgress` constructs, from every
reachable state, fault-free polls that settle a scan: settling is always
possible.

**The parts.** Each part that the protocol treats as one step has its own
module, in the form its source has:

| part | values and proofs | code that works in place |
|---|---|---|
| scanner job store | `JobStore`, `GoEngine` | `JobStoreObject` |
| worker pool | `WorkerPool` (interleaved steps), `ScanTasks` | |
| pin validation | `BlockedAddresses`, `AddressPrefixes`, `Hostnames` | `PinValidation` |
| target authorization | `Hostnames` | `TargetAuthorization` |
| persistence | `ScanRecords`, `Constraints` | `Persistence` |
| response contract | `ScannerContract` | |
| polling hook | `PollingHook` (event loop) | `PollingHookObject` |

A class in the right column updates fields and loops as the source does, and
each of its methods is proved to compute the function in the left column; the
laws are proved about that function.

**Statements.** The model's functions follow the code; the results about them
are stated in the fields of rows, jobs and rules, in octets, or in orders written
out, not in the model's own predicates. Where a predicate is used for brevity, a
lemma says what it means without it: `CountsAllActive` for the owner's active
rows, `CountsAllJobs` for the scanner's, `BlockedIsReserved` for refused
addresses, `FinePins` for pins, `RuleFoundIffAdmitted` for rules,
`RefusedExactlyWhen` for the constraints of the tables, `IdentityIs`,
`TrimSpaceIs` and `SpaceByCode` for the identity test of a target, `HeldIs` for
who works under a token, `RepliesAreRead` for what a reply makes of a request.

**History.** Some fields are never read by the system and only record its past:
which token claimed which scan, what was attached and when, which dispatch
created which scanner job, what was dialled, what polls answered.

## What was found

- *A completed answer can be empty.* A poll whose fetch fails for good answers
  at once with an empty result list. If another poll completes the row in
  between, the caller is told "completed" with no results.
  `ProtocolCounterexamples.CompletedAnswerWithoutResults` is such a run;
  `ProtocolAnswers.CompletedAnswersFollowTheirFetch` shows that a completed
  answer is full exactly when the poll's own fetch neither missed the job in the
  scanner nor got something unusable.
- *A blocked scan can have been accepted by the scanner.* The comment of
  migration V006 says that a blocked job must never have reached it. After a lost
  answer and a disabled rule it has: `BlockedAfterBeingAccepted`. It has exactly
  when the scanner handled a create message sent under a claim before the last
  one, found its target valid and had a worker free:
  `ProtocolContact.BlockedAfterContact`. The lease under which a scan is blocked
  has never told the scanner anything, so the comment is right whenever no rule
  was attached under an earlier claim:
  `ProtocolFirstLease.BlockedBeforeAnyContact`.
- *Execution is not exactly-once.* docs/api/ballerina-public-api.md:228-229 says
  that a job accepted before an ambiguous timeout is returned rather than
  duplicated. After a restart, or once retention has evicted the job, a retry
  starts another one: `AcceptedTwice`. `RetriesAreSafe` says exactly when: a
  message creates a scanner job if and only if its target passes validation, no
  job is retained for the scan and there is room; and it is answered with the
  retained job if and only if its target passes validation and there is one. A
  retry can also be refused for its target while the job it asks about is at
  work. Two live jobs never serve one scan: `OneLiveScannerJobPerScan`.
- *The active limit is a property of the engine, not of the store.*
  `markRunning` on a finished job revives it past a full store:
  `RevivalExceedsLimit`, with the exact condition in `MarkRunningKeepsLimit`.
- *A retry does not move the pins.* The scanner compares target and ports, not
  pins, so a later dispatch that pins other addresses is given the old job, and
  what is dialled are the pins of the dispatch that created it:
  `DialsFollowTheFirstDispatch`. A message's pins are used exactly when it
  creates a job, and `RetriesAreSafe` says when that is; `EveryDialWasAuthorized`
  is stated about that dispatch.
- *A lease is worth exactly what is recorded under it in time.* What a dispatcher
  records is applied if and only if nobody has claimed the row since, and nobody
  can before its lease expires: `ProtocolTenure.RecordsAreApplied`. A poll told
  that its scan is still queued has met somebody else's lease, a full scanner or
  no answer from it, or has recorded too late:
  `ProtocolEveryPoll.EveryPollLowersRank`. `validateDispatchLease` is there to
  keep recording in time.
- *Repeated DNS answers are refused.* The scanner never accepts an answer that
  names an address twice, although the API removes repetitions from its own:
  `PinValidation.RepeatedAnswerNeverMatches`.

## Model

| member | source | states |
|---|---|---|
| ProtocolSafety.StepPreserves | ballerina-api/service.bal:585-786 | every step of every request, rule change, message and scanner event keeps the joint invariant, and undoes nothing: rows only move along the automaton, rules only get disabled, records only grow |
| ProtocolSafety.NoWriteIsRefused | database/migrations/V001__create_core_tables.up.sql:69-110 | in every execution no write violates a constraint, every row has its fields in the order of its life (a failure code exactly when failed or blocked, a scanner job when running or completed, times that do not go back, a lease only while queued), and no two rows name the same scanner job |
| ProtocolSafety.RowsFollowTheAutomaton | ballerina-api/persistence.bal:230-317 | between any two moments a row has followed the five-state automaton, a terminal row has not changed, and its scanner id was written at most once, leaving QUEUED |
| ProtocolSafety.OwnersStayWithinTheirLimit | ballerina-api/persistence.bal:158-200 | however admissions interleave and owners hash, no set of rows of one owner that are queued or running is larger than the limit; with the required limit of one, any two such rows are the same row |
| ProtocolSafety.RetriesAreSafe | scanner-engine/cmd/server/scans.go:108-186 | in every reachable state and for every outcome of target validation, a message creates a scanner job if and only if the target passes, no job is retained for the scan and there is room, and the job then has this message's dispatch, pins and ports; it is answered with the retained job if and only if the target passes and there is one; a refused target is told so; a conflict is never answered |
| ProtocolSafety.OneLiveScannerJobPerScan | scanner-engine/cmd/server/scans.go:150-186 | two live scanner jobs never serve the same public scan |
| ProtocolSafety.ResultsAreComplete | ballerina-api/persistence.bal:381-423 | a completed row has exactly one result per pin of the creating dispatch and port of the range, at most 16 x 1000, and its audit event records that number; any other row has none |
| ProtocolSafety.CompletionStoresTheAnswer | ballerina-api/persistence.bal:381-423 | the step that completes a row stores every row of the scanner's answer with its own state, and nothing else |
| ProtocolSafety.AuditTellsTheStatus | database/migrations/V004__harden_scan_audit_events.up.sql:5-60 | folding a job's audit events from nothing gives its current status; the first event is the owner's request with the row's ports, the later ones are the service's, the last carries the row's failure code or its number of results and duration; nothing is logged about a job that does not exist |
| ProtocolSafety.EveryDialWasAuthorized | ballerina-api/service.bal:596-621 | every address ever dialled was among the one to sixteen different pins of a dispatch that had itself claimed the scan and attached a rule which at that instant was enabled, not past its expiry date, open to the row's owner, allowed all ports of the row's range and covered its target |
| ProtocolAuthorization.EveryDialWasAttached | ballerina-api/persistence.bal:676-693 | hence for every address ever dialled there is a step of the execution at which a dispatcher that had pinned it, the row queued under its token, wrote the rule into the row, and the rule table then held that rule enabled, not expired, open to the owner and covering target and ports |
| ProtocolDials.EveryDialIsUnblocked | scanner-engine/internal/validation/validation.go:57-125 | when messages are let through only by the scanner's target checks, made with what names resolve to at that moment: every address ever dialled lies outside the reserved ranges, octet by octet, and its job was created from a message that passed those checks, so that a name then resolved to as many addresses as were pinned, every pin among them |
| ProtocolSafety.StaleTokensAreFenced | ballerina-api/persistence.bal:246-294 | once a later claim has succeeded, every attach, dispatched or dispatch-failed write under an older token changes nothing, however late it arrives |
| ProtocolSafety.ClaimsWaitForLeases | ballerina-api/persistence.bal:230-244 | a claim succeeds only on a queued row whose previous lease has expired |
| ProtocolSafety.LeasesExclude | ballerina-api/persistence.bal:230-244 | in every execution two successful claims of one scan lie at least a whole lease apart |
| ProtocolTenure.HoldersKeepTheirLease | ballerina-api/persistence.bal:230-294 | at any later moment of any execution at which a claimant still works under its token, its lease is in force with its expiry date if and only if nobody has claimed the row since, and nobody has before that date |
| ProtocolTenure.RecordsAreApplied | ballerina-api/persistence.bal:246-294 | what a claimant records is applied if and only if nobody has claimed the row since, hence always before its lease expires; the row then carries the scanner id or the failure and has left the queue, and otherwise nothing changes |
| ProtocolSafety.CompletedAnswersAreFull | ballerina-api/service.bal:730-785 | an answer that says completed carries the committed row, and its whole result set exactly when it was not given by the failure branch; every other answer carries none |
| ProtocolAnswers.FailedAnswersFetchedInVain | ballerina-api/service.bal:715-741 | over every execution an answer is given by the failure branch exactly when that poll's own fetch got something unusable, or reached a scanner that no longer had the recorded job |
| ProtocolAnswers.CompletedAnswersFollowTheirFetch | ballerina-api/service.bal:715-785 | hence a completed answer is the committed row, at every later moment too, and carries its whole result set exactly when that poll's own fetch did not so fail |
| ProtocolAnswers.EveryAnswerIsGiven | ballerina-api/service.bal:672-786 | every recorded answer was given by one step of one poll, so the two rows above speak of all answers |
| ProtocolAnswers.SettledFetchesSettle | ballerina-api/service.bal:706-768 | whatever else runs in between, a poll whose fetch reached the scanner when the recorded job was not at work can only give a terminal answer, and that is the row |
| ProtocolOutcomes.OutcomeIsRecorded | ballerina-api/service.bal:588-644 | what the row becomes when the last claimant records what it was told: blocked with the policy's code, blocked when no rule could be attached, running as the scanner job that accepted it, blocked or failed with the code of the scanner's refusal, failed when the reply could not be read |
| ProtocolOutcomes.OnlyMatchingAnswersAreUsed | ballerina-api/service.bal:788-801 | a fetched answer is used exactly when it is about the recorded scanner job and the same scan and its fields fit its status |
| ProtocolOutcomes.FetchIsRecorded | ballerina-api/service.bal:715-768 | the row ends as the fetch found the scanner's job: completed with its duration, failed because the scan failed, because the job was gone or because the answer was unusable; a job at work and an ended row change nothing |
| ProtocolSafety.PollsNeverGoBack | ballerina-api/service.bal:672-786 | a poll begun after another was answered never reports an earlier stage, and a terminal answer is repeated unchanged |
| ProtocolSafety.FetchNeverMismatches | ballerina-api/service.bal:743-752 | with this scanner the mismatch branch is never taken: a fetch finds the job gone or goes on to synchronize |
| ProtocolSafety.BlockedRowsAreBare | database/migrations/V006__enforce_target_authorization.up.sql:1-8 | a blocked row has no scanner id, no start time, no results, and the history requested, blocked |
| ProtocolFirstLease.StepPhase | ballerina-api/service.bal:588-644 | every step keeps the phases of a lease: what its holder has not sent, the scanner has not seen, and a message is handled once |
| ProtocolContact.AcceptedExactlyWhen | scanner-engine/cmd/server/scans.go:108-186 | in every execution the scanner has accepted a scan if and only if it has handled a create message for it whose target passed validation while fewer workers than the limit were alive |
| ProtocolContact.BlockedAfterContact | database/migrations/V006__enforce_target_authorization.up.sql:1-8 | a blocked scan has been accepted if and only if such a message was sent under a claim before its last one |
| ProtocolFirstLease.BlockedBeforeAnyContact | database/migrations/V006__enforce_target_authorization.up.sql:1-8 | in particular a blocked scan to which nothing was attached but under its last claim has never been accepted, and no message about it is left either |
| ProtocolFirstLease.BlockedUnderTheFirstLease | database/migrations/V006__enforce_target_authorization.up.sql:1-8 | and so a scan blocked after at most one claim |
| ProtocolCounterexamples.CompletedAnswerWithoutResults | ballerina-api/service.bal:730-741 | an execution from an empty database in which a poll answers completed with no results although the row has one |
| ProtocolCounterexamples.BlockedAfterBeingAccepted | database/migrations/V006__enforce_target_authorization.up.sql:1-8 | an execution in which a scan is blocked under its second lease after the scanner has accepted it |
| ProtocolCounterexamples.AcceptedTwice | docs/api/ballerina-public-api.md:226-229 | an execution in which the scanner accepts the same scan twice, under two leases and two job ids: the first answer is lost and the scanner restarts |
| ProtocolCounterexamples.DialsFollowTheFirstDispatch | scanner-engine/cmd/server/jobs.go:78-89 | an execution in which a second dispatch attaches another address, is answered with the job still held, and only then the first dispatch's address is dialled |
| ProtocolEveryPoll.EveryPollLowersRank | ballerina-api/service.bal:672-786 | over every execution, with any other steps in between and any time passing: a poll that is answered, found the lease free if it claimed, did not give up on the scanner or find it full, and recorded before its lease expired is told that the row has left the queue, and its last word unless the scanner's job was at work when it asked; the row never moves away from its end and has come closer if it was queued or its scanner job over |
| ProtocolEveryPoll.EveryTwoPollsSettle | ballerina-api/service.bal:672-786 | in every execution: after such a poll, any later poll that is answered and never found the scanner's job at work is told the row's last word, and that is the row, whatever ran during and between the two |
| ProtocolProgress.ScannerFinishes | scanner-engine/cmd/server/scans.go:188-198 | a scanner job at work can always be brought to its end, for any output, without touching the database |
| HistoryPaging.TopExists | ballerina-api/persistence.bal:516-535 | the page query has an answer for every set of rows and every size |
| HistoryPaging.TopUnique | ballerina-api/persistence.bal:463-485 | and only one: strict descending order, nothing lower returned before something higher |
| HistoryPaging.WalkIsComplete | ballerina-api/service.bal:185-199 | for all page sizes from 1 to 100 and any inserts between pages, a finished walk is strictly descending, repeats nothing and holds every row present at the start exactly once |
| HistoryPaging.QuietWalkIsTheHistory | ballerina-api/persistence.bal:463-491 | without inserts the pages concatenate to the whole history in order |
| HistoryPaging.QuietWalkEnds | ballerina-api/persistence.bal:463-491 | and a short page comes after no more full pages than there are rows |
| HistoryPaging.HistoryIsPagedCompletely | ballerina-api/persistence.bal:463-535 | for pages read at any later and later moments of an execution: what an owner reads are rows of that owner with their own dates, newest first, ties by id, none twice, every row present at the start exactly once, no page longer than asked or than 100 |
| ScanRecords.LifeWordReplays | database/migrations/V004__harden_scan_audit_events.up.sql:5-60 | each of the six legal histories replays to the status it belongs to |
| Constraints.RefusedExactlyWhen | database/migrations/V001__create_core_tables.up.sql:69-110 | of tables that meet the constraints (rows by status, events by column, scanner ids and events unique, rules existing) a write makes such tables, and is refused exactly when it would not |
| ScanRecords.AbsentActionIsFree | database/migrations/V004__harden_scan_audit_events.up.sql:55-60 | an action missing from a job's history is always free in the unique index |
| ScanRecords.InsertResultsKeys | ballerina-api/persistence.bal:393-403 | rows for different endpoints are all inserted, so the conflict clause drops none |
| ScanRecords.InsertResultsStates | ballerina-api/persistence.bal:393-403 | and each keeps its own state |
| ScannerContract.EngineResponsesPass | ballerina-api/scanner_client.bal:170-178 | every job the engine can return has a valid lifecycle shape and matches the row that recorded it, so the result cast cannot fail |
| Persistence.Client.InsertQueuedScan | ballerina-api/persistence.bal:158-200 | under the owner's lock: refuses exactly when at least as many of the owner's rows as the limit wait or run, otherwise adds this one row, queued, with its event, or rolls back |
| Persistence.Client.InsertBlockedScan | ballerina-api/persistence.bal:202-228 | one blocked row and two events, all or nothing |
| Persistence.Client.ClaimScanDispatch | ballerina-api/persistence.bal:230-244 | commits the one-step claim of the protocol: unchanged exactly when the row is missing, not queued, already at the scanner or leased for longer; otherwise only token, expiry and update time are new |
| Persistence.Client.AttachAllowedTargetToDispatch | ballerina-api/persistence.bal:676-693 | unchanged exactly when the lease is not held or the rule is missing, disabled or past its expiry date; otherwise only the row's rule and update time are new |
| Persistence.Client.MarkScanDispatched | ballerina-api/persistence.bal:246-268 | status, scanner id and event together, or nothing |
| Persistence.Client.MarkScanDispatchFailed | ballerina-api/persistence.bal:270-294 | failure or block with its event, or nothing |
| Persistence.Client.MarkScanSynchronizationFailed | ballerina-api/persistence.bal:296-317 | failure of an active row with its event, or nothing |
| Persistence.Client.SynchronizeCompletedScan | ballerina-api/persistence.bal:381-423 | rows one by one, then status, then event: the whole transaction equals the protocol's one atomic completion, and any refused statement rolls all of it back |
| Persistence.Client.SynchronizeScanJob | ballerina-api/persistence.bal:367-424 | the four cases of a scanner answer, including the failing cast |
| Persistence.Client.DisableAllowedTarget | ballerina-api/persistence.bal:761-779 | the only change a rule ever sees |
| Persistence.Client.InsertAuditEvent | ballerina-api/persistence.bal:426-441 | the event takes its rule from the row as the transaction sees it, and is refused exactly when actor, outcome or metadata do not fit its action or the job has one for that action |
| TargetAuthorization.ResolveAllAddresses | ballerina-api/target_authorization.bal:70-92 | an error, or each different address of the answer once in order of first occurrence; the limit counts different addresses |
| TargetAuthorization.AuthorizeScanTarget | ballerina-api/target_authorization.bal:22-63 | relative to the answers of the two rule queries: grants exactly when a rule is found and all resolved addresses are public, and then pins one to sixteen different addresses, those of the name in order of first occurrence or the address itself; a refusal carries the rule that was found, or none if none was |
| TargetAuthorization.RuleFoundIffAdmitted | ballerina-api/persistence.bal:622-674 | with the queries answered from the rule table, a rule is found exactly when the table holds one that is enabled, not past its expiry date, open to the owner, allows all the ports and covers the target, and the one found is such a rule |
| TargetAuthorization.OwnersRuleComesFirst | ballerina-api/persistence.bal:622-674 | of the rules that admit a request one of the owner's own is found if there is one, and for an address one with the longest prefix among those |
| TargetAuthorization.GrantMeetsTheDispatcher | ballerina-api/service.bal:597-621 | hence every grant is a decision the protocol's dispatcher is allowed to take |
| TargetAuthorization.FirstsAreDistinct | ballerina-api/target_authorization.bal:77-101 | removing repetitions loses no address |
| TargetAuthorization.FirstsKeepOrder | ballerina-api/target_authorization.bal:77-101 | and keeps the order in which the addresses first occur |
| PinValidation.SameIPSet | scanner-engine/internal/validation/validation.go:127-153 | true exactly when neither list has a nil or a repetition and both are the same set of canonical addresses |
| PinValidation.SameAddressesUpToOrder | scanner-engine/internal/validation/validation.go:127-153 | hence independent of order and of which list is which |
| PinValidation.CountingDecides | scanner-engine/internal/validation/validation.go:138-152 | counting map entries decides set equality |
| PinValidation.RepeatedAnswerNeverMatches | scanner-engine/internal/validation/validation.go:138-152 | an answer with a repetition never matches |
| AddressPrefixes.CoversMeansLeadingBits | scanner-engine/internal/validation/validation.go:340-362 | an address is in a prefix exactly when, as one number, it has the base's leading bits |
| BlockedAddresses.BlockedIsReserved | scanner-engine/internal/validation/validation.go:302-375 | isBlockedIP refuses exactly the addresses of a list written in octets, four or sixteen, mapped addresses like the ones they map, private ranges unless allowed, and everything that is not an address |
| Hostnames.ServicesAgreeOnNames | ballerina-api/service.bal:1046-1067 | the API's pattern accepts exactly the names that the scanner's label-by-label check accepts and that have no upper-case letter |
| PinValidation.ParsePins | scanner-engine/internal/validation/validation.go:79-98 | accepts exactly the lists in which every pin is trimmed, an address, outside the reserved ranges and different from the others, and otherwise reports the first fault |
| PinValidation.FinePins | scanner-engine/internal/validation/validation.go:79-98 | which pins have no fault, and what is wrong with one that has, in octets and positions |
| PinValidation.FinalDotIsIgnored | scanner-engine/internal/validation/validation.go:286-299 | a target and an allowlist entry match with or without one final dot, not two |
| PinValidation.ValidatePinnedTarget | scanner-engine/internal/validation/validation.go:57-109 | accepts exactly when identity, size, every pin and the target match, so that no accepted pin lies in a reserved range, and otherwise reports the first failing test |
| PinValidation.VerifyCurrentResolution | scanner-engine/internal/validation/validation.go:113-125 | nothing to check for an address; a name must resolve to exactly its pins |
| PinValidation.CheckTarget | scanner-engine/cmd/server/scans.go:108-128 | a request gets through exactly when its pins are accepted and current; then they are different, outside the reserved ranges, and all the name resolves to |
| PinValidation.MatchingAnswersAreSound | scanner-engine/internal/validation/validation.go:111-125 | an answer that matches sound pins names nothing in a reserved range |
| PinValidation.SoundPinsAreValid | scanner-engine/internal/validation/validation.go:73-98 | accepted pins are one to sixteen different addresses, as the task list needs |
| ScanTasks.TaskCount | scanner-engine/internal/scanner/scanner.go:40-58 | the nested loops make addresses x ports tasks |
| ScanTasks.TaskMembers | scanner-engine/internal/scanner/scanner.go:54-58 | each address and port of the range exactly once |
| ScanTasks.CompleteOutputContents | scanner-engine/internal/validation/ports.go:31-39 | a complete output has one row per endpoint in scope, at most 16 x 1000 |
| WorkerPool.StepPreserves | scanner-engine/internal/scanner/scanner.go:50-76 | every step of loop and goroutines keeps semaphore, wait group, mutex and rows in balance |
| WorkerPool.DialsAreBounded | scanner-engine/internal/scanner/scanner.go:52-67 | under every schedule no set of goroutines that are dialling is larger than the limit, no two are between lock and unlock, and giving back a slot or a count never blocks or goes negative |
| WorkerPool.SomethingMoves | scanner-engine/internal/scanner/scanner.go:50-76 | with at least one slot, every state before the return has an enabled step |
| WorkerPool.EveryScheduleReturns | scanner-engine/internal/scanner/scanner.go:50-78 | a schedule is stuck exactly when Scan has returned, and takes the same number of steps to get there whatever the order |
| WorkerPool.ReturnedResults | scanner-engine/internal/scanner/scanner.go:69-78 | what is returned is a permutation of the tasks' answers: no append lost to a race, none repeated |
| WorkerPool.ScanOutputIsComplete | scanner-engine/internal/scanner/scanner.go:39-78 | hence every returned scan has one row per endpoint in scope, with the state its own dial found, and nothing else |
| GoEngine.PoolGivesScannerOutput | scanner-engine/cmd/server/scans.go:188-198 | what the worker pool returns is what the engine may record |
| JobStore.KeptCount | scanner-engine/cmd/server/jobs.go:161-189 | of any set of jobs, exactly the smaller of size and limit have fewer newer ones than the limit |
| JobStore.RetentionKeepsNewest | scanner-engine/cmd/server/jobs.go:161-189 | retention keeps every accepted or running job and, of the finished ones, as many as the limit allows; whatever finished job is gone was updated before whatever finished job is kept, ties by id; it changes none, and drops exactly the keys of what it drops |
| JobStore.LatestIsKept | scanner-engine/cmd/server/jobs.go:161-189 | in particular the job that finished last can still be fetched |
| JobStore.UpdateEvictsAtMostOne | scanner-engine/cmd/server/jobs.go:132-145 | one update evicts at most one job |
| JobStore.MarkRunningInPlace | scanner-engine/cmd/server/jobs.go:110-114 | starting an active job evicts nothing |
| JobStore.MarkRunningKeepsLimit | scanner-engine/cmd/server/jobs.go:110-114 | markRunning keeps the active limit if and only if the job was active or there was room |
| JobStore.RevivalExceedsLimit | scanner-engine/cmd/server/jobs.go:110-114 | a full store with one finished job, revived past its limit |
| JobStoreObject.ExpiredPrefix | scanner-engine/cmd/server/jobs.go:175-181 | the prefix of the sorted list that is deleted is exactly the set of expired jobs |
| JobStoreObject.Sort | scanner-engine/cmd/server/jobs.go:175-180 | the terminal jobs, each once, by update time and then by id, oldest first |
| JobStoreObject.Jobs.constructor | scanner-engine/cmd/server/jobs.go:43-50 | an empty store with its limits |
| JobStoreObject.Jobs.Admit | scanner-engine/cmd/server/jobs.go:74-100 | answer and new store are those of the admission decision, including the forgotten stale key |
| JobStoreObject.Jobs.Get | scanner-engine/cmd/server/jobs.go:102-108 | the stored job or nothing |
| JobStoreObject.Jobs.Update | scanner-engine/cmd/server/jobs.go:132-145 | changes one stored job, stamps it and enforces retention; an unknown id changes nothing |
| JobStoreObject.Jobs.MarkRunning | scanner-engine/cmd/server/jobs.go:110-114 | the status change with its retention |
| JobStoreObject.Jobs.MarkCompleted | scanner-engine/cmd/server/jobs.go:116-122 | result set, error cleared, with its retention |
| JobStoreObject.Jobs.MarkFailed | scanner-engine/cmd/server/jobs.go:124-130 | error set, result cleared, with its retention |
| JobStoreObject.Jobs.ActiveCountLocked | scanner-engine/cmd/server/jobs.go:151-159 | the number of active jobs, in whatever order the map is visited |
| JobStoreObject.Jobs.EnforceRetentionLocked | scanner-engine/cmd/server/jobs.go:161-189 | in whatever order the maps are visited: active jobs stay, a finished job that goes was updated before every finished job that stays, as many stay as the limit allows, and exactly the keys of what went go |
| GoEngine.ReceiveKnown | scanner-engine/cmd/server/jobs.go:78-89 | a known key always belongs to a retained job: the retry changes nothing and the stale-key branch is dead |
| GoEngine.ReceiveNew | scanner-engine/cmd/server/scans.go:150-186 | any other request creates a job and starts one goroutine exactly when there is room |
| GoEngine.HandlePreserves | scanner-engine/cmd/server/scans.go:182-198 | admission, start, finish and restart keep jobs, goroutines, keys and limits in step |
| GoEngine.EngineSafety | scanner-engine/cmd/server/jobs.go:74-189 | over every run both limits hold at every moment, a job with a live goroutine is never evicted, and no two retained jobs share a key |
| GoEngine.EngineHistory | scanner-engine/cmd/server/jobs.go:110-145 | each job moves accepted, running, completed or failed once, a finished one never changes, a gone one never returns |
| PollingHook.StepOk | frontend/hooks/use-scan-detail.ts:30-79 | every response, timer, retry, id change, commit and unmount keeps generations, timers and requests in step |
| PollingHook.OneLiveGeneration | frontend/hooks/use-scan-detail.ts:30-74 | in every order of events at most one generation, one timer and one unaborted request are live, and none after unmounting |
| PollingHook.WaitingOrArmed | frontend/hooks/use-scan-detail.ts:40-66 | after an active status or a temporary failure the live generation has a request on the way or a timer armed, never both; after anything else it was told, neither |
| PollingHook.FiringAsksAgain | frontend/hooks/use-scan-detail.ts:36-43 | a timer that fires belongs to the live generation and starts its next request |
| PollingHook.StopsUntilAsked | frontend/hooks/use-scan-detail.ts:51-61 | after a terminal status or a permanent failure there is no request and no change on the screen until a retry or another id |
| PollingHook.ShownIsLastTold | frontend/hooks/use-scan-detail.ts:47-60 | the screen shows the scan or the error the live generation was last told, and that it is retrying exactly while polling goes on after an error |
| PollingHookObject.Hook.Load | frontend/hooks/use-scan-detail.ts:40-45 | starts a request only when live and idle |
| PollingHookObject.Hook.Continue | frontend/hooks/use-scan-detail.ts:46-61 | what the callback writes and whether it schedules |
| PollingHookObject.Hook.OnSettled | frontend/hooks/use-scan-detail.ts:44-66 | keeps the invariant; an answer to a dead generation shows and schedules nothing, and one that ends the polling leaves no timer |
| PollingHookObject.Hook.OnTimer | frontend/hooks/use-scan-detail.ts:36-38 | keeps the invariant; the timer that fires was the only one and always starts one new request of the live generation |
| PollingHookObject.Hook.OnCommit | frontend/hooks/use-scan-detail.ts:68-74 | keeps the invariant; one new live generation for the current id has asked in place of the old one, and no timer is armed |
| PollingHookObject.Hook.OnUnmount | frontend/hooks/use-scan-detail.ts:69-73 | keeps the invariant; no generation is live and no timer armed |
| PollingHookObject.Hook.CleanUp | frontend/hooks/use-scan-detail.ts:69-73 | deactivates, clears the timer and aborts |
| PollingHookObject.Hook.OnRetry | frontend/hooks/use-scan-detail.ts:76-79 | keeps the invariant and makes a new generation due at the next commit |
| PollingHookObject.Hook.OnSetId | frontend/hooks/use-scan-detail.ts:23-23 | keeps the invariant; a new id makes nothing happen before the next commit |

## Left out

- HTTP routing, JSON, headers, status wording, logging, request size limits: only the outcome classes of the calls remain.
- TCP, DNS, Java and Go address parsing: arbitrary functions; canonical address text is represented by canonical bytes, which it tells apart.
- UUIDs are numbers, fresh when generated; the text order of job ids in the retention sort is the order of those numbers.
- String lengths count characters, not bytes; lower-casing is an arbitrary function.
- `scan_jobs_target_ck`: an over-long target can reach the blocked insert and be refused by it; only the lifecycle, port and lease CHECKs are modelled.
- Rule administration beyond adding and disabling: its audit events, the enabled-only uniqueness of migration V005 and the admin listings.
- The owner filter of the loads: a poll is served for the row's owner, and authorization of readers is not part of this model.
- PostgreSQL itself: statements are atomic, advisory locks last until commit, a transaction's time is when it began, and a cursor round-trips exactly.
- Fairness: the reconciler polls only the oldest active rows, so nothing is said about which row is served when; progress is about polls that take place.
- Exactly-once execution: not claimed, because it is not so.
- Isolated development mode, the test bypass and unpinned requests in development, which switch off the steps the results rest on.
- OIDC, sessions, cookies, the dashboard, forms, deployment scripts and down migrations.
- Scan's own second validation and its resolution of unpinned targets: the pool starts from the validated addresses.
- The worker pool and the protocol are state machines on values: their point is the interleaving, which methods on shared fields would hide.
- HistoryPaging.TopExists: the sorting of rows is the database's; a page is specified, not computed.
