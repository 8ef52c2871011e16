# Verified model of the service platform's protocols

This project models the stateful core of the platform in Dafny and proves what the services promise
each other. Each service is a class over its stored rows, with one method per transaction; each method
is proved against functions on values, and the promises are lemmas about those functions, about whole
runs, or about all interleavings of a state machine.

| module | what it models |
|---|---|
| `Approvals` | approval requests: create, preapprove, decide, consume, cancel, expire |
| `Defence` | FATMA defence actions: recommend, request approval, execute, revert, sweep |
| `Protocol` | approve, consume, apply over two stores that commit separately and a provider that may fail: all interleavings of both, with rollback or a lost reply at any point |
| `Undisturbed` | the steps of that machine against the one-transaction models of `Defence` and `Scanner` |
| `Liveness` | which defence actions can still become active in that machine |
| `Scanner` | the scan gate, requesting, starting, cancelling and retrying scans, daily and concurrent limits |
| `Slots`, `Booking` | offering appointment slots, booking, cancelling, rescheduling |
| `Idempotency` | the idempotency store with concurrent callers |
| `RateLimit` | the in-memory deque and the Redis sorted set against the full history of hits |
| `AuditChain` | the hash chain of the audit log, written and verified |
| `Text`, `SqlScript`, `Chunker`, `Luhn` | the SQL script splitter, the knowledge chunker, the card check digit |
| `Knowledge` | versioned documents and the chunk index |
| `Risk`, `Incidents` | risk scoring, the incident ratchet and life cycle |
| `Notifications` | enqueue, claim, deliver with retries, cancel, receipts |

The functions that methods are proved against do not vouch for themselves: what each comes to is stated a
second time in the columns of the rows and the fields of the request, as the contract of the method or as a
lemma (`Booking.TokenMeans`, `Slots.OfferedIff`, `AuditChain.EveryFieldIsHashed` and the like).

`Common` holds options, results and error classes. `dafny verify dfyconfig.toml` checks everything.

## What the proofs show beyond the promises

Some claims one might expect are false of the code; the lemmas below give the input and the exact
condition.

- A defence action can still become active if and only if it is recommended, or waits for an approval that
  is pending or approved and in time, or some request about it that is in flight can still deliver: one
  before the answer of the approval service, one whose own approval is alive, or one past its redemption that
  the provider has not refused (`Liveness.CanStillBeExecuted`). With nothing in flight but executions that
  loaded the row as it is, the approval alone decides (`Liveness.UndisturbedCanBeExecuted`), and once it is
  spent, refused or overdue the action is stuck for ever: no step of any run moves it, and because it still
  counts as open, nothing else of the same type and target is ever recommended (`Liveness.StuckForever`).
  This happens without any failure when nobody answers in time, and when an executing transaction rolls back
  after the redemption (`Liveness.UnansweredRequestSticks`, `Liveness.RolledBackExecutionSticks`).
- `decide` on an overdue request writes EXPIRED and then raises, so the write is rolled back; only the
  sweep expires rows (`Approvals.ApprovalService.Decide`).
- An offered slot can be refused although nothing changed: availability ignores meetings outside
  [now, horizon], booking does not. Agreement holds if and only if no such meeting reaches into the
  buffered slot (`Booking.OfferAndBookingAgree`).
- Rescheduling with a key that was used before succeeds if that key's appointment has the same start and
  contact, and then books nothing. The appointment it returns is booked if and only if it is another than
  the one being moved and was booked already, and the contact is left without any booking if and only if
  they had no other (`Booking.UsedKeyBooksNothing`). A run that loses a booking this way is
  `Booking.BookAndLose`.
- If the Redis lock of an idempotency key lapses while its run is in flight, a second run starts beside
  it (`Idempotency.LapseAdmitsASecond`).
- The deque limiter's retry time is too short unless at most a second or a whole number of seconds is
  left (`RateLimit.DequeRetrySuffices`).
- Processes that share a Redis key record all the hits they accept if and only if no accepted hit finds
  its own member live (`RateLimit.AllAreRecorded`). Then every window holds at most the limit, as it does
  whenever all hits have different names (`RateLimit.UnreplacedKeyIsBounded`,
  `RateLimit.DistinctHitsAreBounded`). After any accepted hit that does find its own member live, further
  hits of the same millisecond are accepted until the window that ends there holds more than the limit
  (`RateLimit.ReplacementOverAdmits`; a smallest run is `RateLimit.SharedSerialsOverAdmit`).
- With a limit below one the script answers in milliseconds (`RateLimit.ScriptRetryOfAnEmptyKey`), and then
  and only then the deque raises `IndexError` (`RateLimit.InMemoryRateLimiter.Hit`).
- `chunk_text` keeps its size bound for all texts if and only if the overlap is at least 1
  (`Chunker.BoundNeedsAnOverlap`); pieces of overlap + 1 characters always survive, pieces of
  overlap + 2 need not (`Chunker.LongerPiecesCanBeCut`).
- Of all deletions, repetitions and rearrangements of the rows of an intact audit chain, exactly those that
  only drop a tail still verify (`AuditChain.OnlyTheTailCanGo`); of any other `verify_rows` names the first
  row that is out of its place (`AuditChain.VerifyPicked`). A dropped tail shows against a published head
  (`AuditChain.TruncationChangesTheHead`).
- Distinct approval of knowledge looks only at who started a version. Its last author may approve it if and
  only if the check is off or somebody else started it (`Knowledge.EditorMayApproveOwnEdit`). Over a whole
  life of a document, one creating it, any others editing it and one approving it, the approver is refused
  if and only if the check is on and they created it, whoever wrote the text that is approved
  (`Knowledge.WriteAndApprove`).
- After a change of the embedding model a search finds nothing of a document until it is approved again in
  a new version (`Knowledge.FoundUnderItsModelOnly`).
- A claimed notification whose worker ends before delivering it stays SENDING for ever
  (`Notifications.LostClaimsAreStuck`), and the last receipt to arrive counts, so that a late one takes a
  message that was read back to sent (`Notifications.LastReceiptCounts`).
- Late findings turn a cancelled scan into a successful one (`Scanner.OnlyFindingsReplaceAnEnd`).
- A retry whose key names another job of the same asset and profile always relinks that job to the new
  approval, without any gate and whatever its status (`Scanner.RetryRelinksAnyJob`,
  `Scanner.RetryRelinksAQueuedJob`), although its own description says that a retry is a new job.

## Model

| member | source | states |
|---|---|---|
| Approvals.ApprovalService.Create | services/approvals/src/approval_service/service.py:45-62 | A request is filed exactly when its action type has a policy and its payload names this tenant and type; every column of the row is given, with the hash of the payload and the deadline of the type |
| Approvals.ApprovalService.Preapprove | services/approvals/src/approval_service/service.py:64-99 | Granted exactly when the tenant's policy allows the payload and the payload names this tenant and type; every column of the grant is given |
| Approvals.PreapprovalMeans | services/approvals/src/approval_service/service.py:64-99 | The rule in the payload's own terms: listed by the tenant, one of four low-risk types, 60 to 3600 seconds, confidence of 0.9 or more, and one address, or a path or session that is none |
| Approvals.PolicyTable | services/approvals/src/approval_service/policies.py:22-40 | Lifetime and risk of every action type; only low-risk actions can be approved in advance, for at most an hour |
| Approvals.DecisionMeans | services/approvals/src/approval_service/service.py:107-125 | When a decision is taken, what it writes, and which error refuses it |
| Approvals.CancellationMeans | services/approvals/src/approval_service/service.py:146-153 | When a request is withdrawn, and which error refuses it |
| Approvals.ApprovalService.Decide | services/approvals/src/approval_service/service.py:107-125 | Succeeds exactly for a pending, unexpired row, the echoed hash of its payload and another person; every failure, the overdue one included, leaves the rows as they were |
| Approvals.ApprovalService.Consume | services/approvals/src/approval_service/service.py:127-144 | Redeems exactly the approved, unexpired row of this type whose payload has the hash of this one, and changes nothing else |
| Approvals.ApprovalService.Cancel | services/approvals/src/approval_service/service.py:146-153 | Only the requester withdraws, only what is still open |
| Approvals.ApprovalService.ExpireAll | packages/database/alembic/versions/0002_service_roles.py:121-130 | Afterwards no pending or approved row is past its deadline; the count is the number of rows expired |
| Approvals.RedemptionIsSingleUse | services/approvals/src/approval_service/service.py:127-144 | When a redemption succeeds, and that the same row never redeems again |
| Approvals.TerminalRowsAreFrozen | services/approvals/src/approval_service/service.py:107-157 | Over every run, rejected, expired, executed and cancelled rows never change |
| Approvals.ExecutedWasGrantedFirst | services/approvals/src/approval_service/service.py:107-144 | Over every run, an executed row was granted at one step, by the policy or a user other than its requester, and redeemed at a later one strictly before its deadline, and was approved all the time between |
| Approvals.NewRequestIsSound | services/approvals/src/approval_service/service.py:45-62 | A filed row carries the hash of its own payload, which names its own tenant and action type |
| Approvals.PolicyGrantIsSound | services/approvals/src/approval_service/service.py:64-99 | A policy grant is sound and within the policy's bounds |
| Approvals.SweepMoves | packages/database/alembic/versions/0002_service_roles.py:121-130 | The sweep is a legal move of every row and keeps the table sound |
| Defence.DefenceTable.Recommend | services/fatma-soc/src/fatma_soc/defense.py:207-238 | An open action of the same type and target is returned, and a new one, with every column given, is added only if there is none; only bad targets and lifetimes are refused |
| Defence.PayloadsAreDistinct | services/fatma-soc/src/fatma_soc/defense.py:41-46 | Two actions have one payload exactly if tenant, identifier, type, provider, target, parameters, lifetime and confidence agree |
| Defence.TargetMeans | services/fatma-soc/src/fatma_soc/defense.py:53-74 | Which targets an action may have and in which form they are stored: public networks of at most 256 or 2^64 addresses, two-letter countries, paths, short names |
| Defence.LifetimeMeans | services/fatma-soc/src/fatma_soc/defense.py:214-216 | Which lifetimes may be asked for, and the 15 minutes or none that a missing one becomes |
| Defence.OneActionEach | services/fatma-soc/src/fatma_soc/defense.py:217-224 | No two actions of one type and target are recommended, pending or active at once |
| Defence.RowsAreBound | services/fatma-soc/src/fatma_soc/defense.py:226-238 | Every row carries the hash of its own payload and, once it has asked for approval, names one |
| Defence.OverdueIsListed | packages/database/alembic/versions/0002_service_roles.py:132-139 | Exactly the active rows whose deadline has passed are due |
| Defence.DefenceTable.RequestApproval | services/fatma-soc/src/fatma_soc/api.py:606-629 | Only a recommendation is sent for approval, and only if the approval service filed one |
| Defence.DefenceTable.Execute | services/fatma-soc/src/fatma_soc/api.py:632-656 | Exactly a pending action whose approval was redeemed is applied: ACTIVE with its reference and deadline, FAILED on an outage, unchanged if the transaction dies |
| Defence.DefenceTable.Run | services/fatma-soc/src/fatma_soc/defense.py:246-266 | A row comes out exactly from PENDING_APPROVAL or APPROVED without a crash; it is ACTIVE or FAILED by the provider's answer, never APPROVED or EXECUTING, with its binding and approval unchanged |
| Defence.DefenceTable.TryPreapproved | services/fatma-soc/src/fatma_soc/preapproval.py:23-50 | All of approve, redeem and apply, or nothing |
| Defence.DefenceTable.Revert | services/fatma-soc/src/fatma_soc/defense.py:268-276 | Only an active action is taken back, only if the provider agrees; asked for by the sweep it is a legal move |
| Defence.DefenceTable.Dismiss | services/fatma-soc/src/fatma_soc/api.py:670-677 | Which actions may be dismissed |
| Defence.DefenceTable.Sweep | services/fatma-soc/src/fatma_soc/main.py:35-43 | Exactly the listed actions that are still active and whose provider agrees expire |
| Defence.SweepEvolves | services/fatma-soc/src/fatma_soc/main.py:24-43 | Acting on the list of an earlier transaction is a legal move of the table: nothing expires early |
| Defence.ListedStaysListed | packages/database/alembic/versions/0002_service_roles.py:132-139 | An action on the due list is from then on either still due or no longer active |
| Defence.ActiveLowRiskIsTimeBoxed | services/fatma-soc/src/fatma_soc/defense.py:214-264 | Every active low-risk action ends 60..3600 seconds after it started |
| Defence.BindingNeverChanges | services/fatma-soc/src/fatma_soc/defense.py:41-50 | Over every run, what the approval is bound to never changes after the recommendation |
| Defence.ExpiredWasDue | services/fatma-soc/src/fatma_soc/defense.py:268-276 | Over every run, EXPIRED comes from ACTIVE and never before the deadline |
| Protocol.RunKeepsInv | services/fatma-soc/src/fatma_soc/api.py:631-656 | In every run of the interleaved machine each process in flight holds its own redeemed approval |
| Protocol.EffectsAreAuthorised | services/approvals/src/approval_service/service.py:127-144 | In every run every provider call and every scan entering QUEUED has its own approval, granted by somebody else or by the policy, redeemed before its deadline, whose stored payload asks for exactly this action or job, column by column, or collides with one that does |
| Protocol.JobPayloadsAreDistinct | services/scanner-controller/src/scanner_controller/service.py:59-66 | Two scan jobs have one payload exactly if they agree in everything but status and approval |
| Protocol.EffectsNeverExceedApprovals | services/fatma-soc/src/fatma_soc/preapproval.py:23-50 | Effects never outnumber redeemed approvals, however often requests fail and are retried |
| Protocol.QueuedHasAnEffect | services/scanner-controller/src/scanner_controller/api.py:262-286 | In every run a job is QUEUED only by a logged effect, which has its own approval |
| Protocol.RedeemKeepsInv | services/fatma-soc/src/fatma_soc/api.py:631-646 | Redemption commits in the approval store alone and still leaves every process consistent |
| Protocol.CommitKeepsInv | packages/platform-core/src/platform_core/db/engine.py:43-53 | Committing the caller's transaction over whatever the row holds by then keeps the invariant |
| Protocol.CommitStartKeepsInv | services/scanner-controller/src/scanner_controller/api.py:262-286 | So does a scan entering QUEUED |
| Undisturbed.ExecutionIsOneTransaction | services/fatma-soc/src/fatma_soc/api.py:632-656 | Taken step by step without interruption, an execution does to actions and approvals what the one transaction does, for every answer of the provider |
| Undisturbed.AskingIsOneTransaction | services/fatma-soc/src/fatma_soc/api.py:606-629 | So does a request for approval, and what is filed asks for exactly this action |
| Undisturbed.PreapprovalIsOneTransaction | services/fatma-soc/src/fatma_soc/preapproval.py:23-50 | So does the pre-approved path: exactly a low-risk recommendation in that mode that the policy allows is carried out |
| Undisturbed.StartIsOneTransaction | services/scanner-controller/src/scanner_controller/api.py:262-286 | So does starting a scan: exactly a pending job with its own redeemable approval is queued |
| Undisturbed.FilingIsOneTransaction | services/scanner-controller/src/scanner_controller/api.py:226-257 | So does filing a scan: a new pending job or a known one is linked to an approval that asks for exactly that scan |
| Undisturbed.ClosingIsOneTransaction | services/fatma-soc/src/fatma_soc/defense.py:268-276 | So do dismissing and reverting |
| Liveness.CanStillBeExecuted | services/fatma-soc/src/fatma_soc/api.py:605-656 | In every reachable world an action is or can become ACTIVE if and only if its row allows it or some request about it in flight can still deliver |
| Liveness.UndisturbedCanBeExecuted | services/fatma-soc/src/fatma_soc/api.py:632-656 | With no request in flight but executions that loaded the waiting row as it is: if and only if its approval is pending or approved and in time |
| Liveness.ProspectIsNotRegained | services/fatma-soc/src/fatma_soc/preapproval.py:23-50 | No step of either store, of any request or of the clock gives an action a prospect that it did not have |
| Liveness.LiveCanBeExecuted | services/fatma-soc/src/fatma_soc/api.py:632-656 | While the approval lives a continuation that executes the action is computed, whoever else is at work |
| Liveness.StuckForever | services/fatma-soc/src/fatma_soc/api.py:632-656 | A waiting action whose approval is spent, refused, lapsed or overdue stays so in every continuation, and no other action of the same type and target is added |
| Liveness.OtherRequestRevives | services/fatma-soc/src/fatma_soc/api.py:606-629 | Another request for approval that is in flight can make the action executable again |
| Liveness.RunKeepsLinked | services/fatma-soc/src/fatma_soc/api.py:606-629 | In every run the approval of a waiting action, and that of every request in flight about it, was filed for exactly this action |
| Liveness.StuckIsRefused | services/fatma-soc/src/fatma_soc/api.py:632-656 | Trying to execute it redeems nothing |
| Liveness.UnansweredRequestSticks | services/fatma-soc/src/fatma_soc/api.py:606-629 | A run without failures that ends there: nobody decides in time |
| Liveness.RolledBackExecutionSticks | services/fatma-soc/src/fatma_soc/api.py:632-656 | A run that ends there after a rollback |
| Scanner.GateClosesWithTime | services/scanner-controller/src/scanner_controller/service.py:38-56 | A gate that passed closes exactly when the authorization or the verification runs out |
| Scanner.GateMeans | services/scanner-controller/src/scanner_controller/service.py:38-56 | The gate passes exactly with an engineer, authorization and ownership in force, a listed asset, a ticket of 3 to 64 plain characters and a safe profile |
| Scanner.CreateMeans | services/scanner-controller/src/scanner_controller/service.py:79-108 | A known key gives its job if asset and profile agree and else a conflict; a new key gives a job exactly if the gate passes, the scanners are known, the date is within 30 days and fewer jobs than the limit were created in 24 hours |
| Scanner.StartMeans | services/scanner-controller/src/scanner_controller/api.py:262-286 | A job starts exactly if it is pending with an approval, the gate passes again, its target is the asset's, a place is free and the approval was redeemed |
| Scanner.RetryMeans | services/scanner-controller/src/scanner_controller/api.py:322-340 | Under a new key a retry asks for what the failed, timed-out or cancelled job asked for, without a date; no other job can be retried |
| Scanner.JobsAreSound | services/scanner-controller/src/scanner_controller/service.py:79-108 | Every stored job has a valid ticket, known scanners and an approval, and runs only with a workflow |
| Scanner.CountIsOfActive | services/scanner-controller/src/scanner_controller/service.py:116-120 | What is counted against the limit is the number of queued and running jobs |
| Scanner.CountIsOfCreated | services/scanner-controller/src/scanner_controller/service.py:92-95 | What is counted against the day's limit is the number of jobs created in the last 24 hours |
| Scanner.ScanService.CreateJob | services/scanner-controller/src/scanner_controller/service.py:79-108 | The answer for every input: the job of a known key exactly if asset and profile match, else a conflict; for a new key a job exactly if no check refuses it |
| Scanner.ScanService.RequestScan | services/scanner-controller/src/scanner_controller/api.py:242-259 | The answer for every input, and one row more exactly if a job was made and its approval filed |
| Scanner.ScanService.Retry | services/scanner-controller/src/scanner_controller/api.py:323-340 | The answer for every input: only ended jobs are retried; a new key adds one linked job, a known one relinks the job it names |
| Scanner.RetryRelinksAnyJob | services/scanner-controller/src/scanner_controller/api.py:323-340 | With the key of any job of the same asset and profile a retry answers with that job exactly if an approval was filed, whatever its status and without a gate |
| Scanner.RetryRelinksAQueuedJob | services/scanner-controller/src/scanner_controller/api.py:323-340 | From an empty table: a queued job ends with an approval it was not started with |
| Scanner.ScanService.Start | services/scanner-controller/src/scanner_controller/api.py:263-295 | Queues exactly a pending job with an open gate, an unchanged target, a free place and a redeemed approval |
| Scanner.ScanService.Cancel | services/scanner-controller/src/scanner_controller/api.py:298-315 | Which jobs can be cancelled |
| Scanner.ScanService.SetStatus | services/scanner-controller/src/scanner_controller/service.py:149-162 | A report never changes how a job ended; the order and the limit on running jobs hold for every end and for starts of jobs that have a workflow |
| Scanner.ReportMeans | services/scanner-controller/src/scanner_controller/service.py:149-162 | A job that has ended keeps its end; any other takes the reported status, with the time if that ends it |
| Scanner.ScanService.PersistFindings | services/scanner-controller/src/scanner_controller/service.py:122-147 | Findings end the job whatever its status |
| Scanner.ScanService.CountRunning | services/scanner-controller/src/scanner_controller/service.py:116-120 | The number of queued and running jobs, which never exceeds the limit |
| Scanner.CountAfterUpdate | services/scanner-controller/src/scanner_controller/service.py:116-120 | Changing one row changes the number of active jobs by that row |
| Scanner.NoDayExceedsTheLimit | services/scanner-controller/src/scanner_controller/service.py:92-95 | No 24 hours, wherever they start, see more jobs created than the daily limit |
| Scanner.EndedJobsStayEnded | services/scanner-controller/src/scanner_controller/service.py:149-162 | Over every run a job that ended never runs again and none is queued twice |
| Scanner.OnlyFindingsReplaceAnEnd | services/scanner-controller/src/scanner_controller/service.py:144-156 | No number of reports replaces an end, findings do |
| Slots.CandidateSlots | services/scheduling/src/scheduling_service/slots.py:50-81 | The nested loops compute the candidates, whatever the working hours are |
| Slots.CandidatesAreTheFreeGridSlots | services/scheduling/src/scheduling_service/slots.py:50-81 | A slot is offered exactly if it is a grid slot of some window of some working day, inside the bounds and clear of busy time |
| Slots.OfferedIff | services/scheduling/src/scheduling_service/slots.py:50-81 | In the terms of the question alone: a slot is offered exactly if it is on the grid of a working day, after the notice period and the earliest time, within both horizons, and nothing busy is nearer than the buffer |
| Slots.WeekdaysGoRound | services/scheduling/src/scheduling_service/slots.py:12-71 | Weekdays follow one another, and 28 September 2026 is a Monday |
| Slots.SlotDayIsVisited | services/scheduling/src/scheduling_service/slots.py:60-66 | Starting at the first local day and stopping at the horizon's midnight loses no slot |
| Slots.CandidatesAscend | services/scheduling/src/scheduling_service/slots.py:50-81 | Sorted disjoint windows give strictly ascending slots |
| Slots.Spread | services/scheduling/src/scheduling_service/slots.py:84-101 | Up to n slots, in order, on as many days as possible; a slot is left out before a chosen one only if the chosen one is the earliest of its day and the other is not |
| Slots.BestCoverage | services/scheduling/src/scheduling_service/slots.py:84-101 | No other choice of that size covers more days |
| Booking.SchedulingService.DbBusy | services/scheduling/src/scheduling_service/service.py:83-90 | Exactly the booked intervals of the calendar that overlap the window |
| Booking.SchedulingService.Availability | services/scheduling/src/scheduling_service/service.py:99-121 | Signed offers for free grid slots; for sorted hours min(asked, all) of them, in order, on as many days as possible |
| Booking.SchedulingService.Book | services/scheduling/src/scheduling_service/service.py:135-178 | A new key books exactly a good offer for a time that is free with its buffer, and else gives the error of the first thing missing; a known key gives its appointment or a conflict |
| Booking.TokenMeans | services/scheduling/src/scheduling_service/service.py:123-132 | Which offers are good (ours, this tenant's, not expired, not of another conversation) and the error of every other |
| Booking.AcceptableMeans | services/scheduling/src/scheduling_service/service.py:135-178 | A booking takes a good offer, an offered type, a time that nothing booked comes nearer to than the buffer, and a calendar that answers |
| Booking.SchedulingService.Cancel | services/scheduling/src/scheduling_service/service.py:193-203 | Only a booked appointment, only if the calendar agrees |
| Booking.SchedulingService.Reschedule | services/scheduling/src/scheduling_service/service.py:205-223 | Succeeds exactly if the old row is booked, the calendar agrees and the booking inside succeeds with the old row out of the way; gives the whole table for a new and for a used key, and the old one on failure |
| Booking.MovingSwapsOneRow | services/scheduling/src/scheduling_service/service.py:205-223 | A move to a new row gives up the old booking and adds exactly one, with every column given: the offered times, the same contact, a link back |
| Booking.UsedKeyBooksNothing | services/scheduling/src/scheduling_service/service.py:205-223 | With a used key, when the returned row is booked and when the contact is left without a booking |
| Booking.BookAndLose | services/scheduling/src/scheduling_service/service.py:135-223 | Booking and rescheduling with one offer and one key leaves nothing booked |
| Booking.BookKeepsTable | services/scheduling/src/scheduling_service/service.py:135-178 | A booking keeps booked rows apart by the buffer of the later one |
| Booking.SeparatedImpliesExclusion | packages/database/alembic/versions/0001_core_schema.py:331-336 | Hence the exclusion constraint never has to fire |
| Booking.OfferAndBookingAgree | services/scheduling/src/scheduling_service/service.py:99-160 | On an unchanged store an offer can be booked if and only if no hidden meeting reaches into it |
| Booking.OfferWithinWindowIsBookable | services/scheduling/src/scheduling_service/service.py:99-160 | In particular every offer whose buffered interval lies in [now, horizon] |
| Booking.OfferCanBeRefused | services/scheduling/src/scheduling_service/service.py:83-121 | An offer for which it fails |
| Booking.BookAndRepeat | services/scheduling/src/scheduling_service/service.py:135-150 | Sending an accepted request again returns the same appointment and adds none |
| Idempotency.AtMostOneInFlight | packages/platform-core/src/platform_core/security/idempotency.py:47-76 | Under every interleaving at most one execution of a key is in flight |
| Idempotency.EveryResponseIsTheOneRuns | packages/platform-core/src/platform_core/security/idempotency.py:47-76 | At most one execution of a key ever succeeds, and every response for the key is that one's |
| Idempotency.LaterCallersGetTheResponse | packages/platform-core/src/platform_core/security/idempotency.py:58-65 | Once an execution has succeeded, in every lapse-free continuation a caller that reads gets its response for the same request, without executing, and a conflict for another |
| Idempotency.OthersWait | packages/platform-core/src/platform_core/security/idempotency.py:58-68 | While an execution is in flight every other caller of its key is refused |
| Idempotency.FreeKeyIsExecuted | packages/platform-core/src/platform_core/security/idempotency.py:58-70 | A key that is new, or whose execution failed, is locked and executed |
| Idempotency.RunTwice | packages/platform-core/src/platform_core/security/idempotency.py:47-76 | The same call after a response gives the same response and executes nothing; after a failure it executes again |
| Idempotency.KeysAreApart | packages/platform-core/src/platform_core/security/idempotency.py:57 | Keys of one scope, and of different scopes without a colon, are stored apart |
| Idempotency.OtherRequestsConflict | packages/platform-core/src/platform_core/security/idempotency.py:50-68 | A different request under a taken key is refused and changes nothing |
| Idempotency.ReleaseFreesOwnRecord | packages/platform-core/src/platform_core/security/idempotency.py:69-76 | A failed run deletes its own pending record only |
| Idempotency.LapseAdmitsASecond | packages/platform-core/src/platform_core/security/idempotency.py:33-45 | A lapsed lock lets a second run in beside the first |
| Idempotency.IdempotencyStore.RunOne | packages/platform-core/src/platform_core/security/idempotency.py:47-76 | Answer and store for every key, known or new, and every outcome; undisturbed, the method does what the machine does |
| AuditChain.VerifyRows | services/audit/src/audit_service/chain.py:24-39 | Accepts exactly the well-chained lists; otherwise names the first bad row, and all rows before it verify |
| AuditChain.EveryFieldIsHashed | services/audit/src/audit_service/chain.py:11-21 | Two rows are hashed alike exactly if every one of the 18 chained fields says the same in both, whatever its representation |
| AuditChain.GenesisIsZeros | services/audit/src/audit_service/chain.py:10 | The chain starts from 64 zeros |
| AuditChain.AuditStore.Append | services/audit/src/audit_service/service.py:70-95 | One row is added with the next number, the authenticated writer, the store's time, redacted metadata and cut identifiers; everything else is the event's |
| AuditChain.AuditStore.Verify | services/audit/src/audit_service/service.py:97-102 | Every reachable log verifies |
| AuditChain.AppendAccepted | services/audit/src/audit_service/service.py:70-95 | A row linked to the head extends an accepted list to an accepted list |
| AuditChain.FindEvidence | services/audit/src/audit_service/chain.py:17-39 | Two accepted lists with one head and different content yield a concrete hash collision, or a preimage of the genesis value if just one of them is empty |
| AuditChain.PrefixAccepted | services/audit/src/audit_service/chain.py:24-39 | Rows before the first bad one verify |
| AuditChain.RepresentationDoesNotMatter | services/audit/src/audit_service/chain.py:17-21 | Reading rows back in another representation does not break the chain |
| AuditChain.OnlyTheTailCanGo | services/audit/src/audit_service/chain.py:1-39 | Rows of an accepted list, picked in any order with any left out or repeated, are accepted if and only if only a tail is missing |
| AuditChain.VerifyPicked | services/audit/src/audit_service/chain.py:24-39 | Of any other pick the answer is the number that the first row out of its place carries |
| AuditChain.TruncationChangesTheHead | services/audit/src/audit_service/chain.py:24-39 | A missing tail verifies, but keeping the head as well takes a collision or a preimage of the genesis value |
| AuditChain.EditIsAcceptedIff | services/audit/src/audit_service/chain.py:24-39 | Another row in the place of one is accepted exactly if it keeps number and link, its hash fits, and, unless it is the last, its hash is the old one |
| AuditChain.EditIsNoticed | services/audit/src/audit_service/chain.py:24-39 | An edit that makes any chained field say something else is noticed, is a collision, or replaces the last row and its hash |
| RateLimit.InMemoryRateLimiter.Hit | packages/platform-core/src/platform_core/security/ratelimit.py:63-71 | The trimmed deque accepts a hit exactly if the full history has fewer than the limit in the window, and raises exactly if the limit is below one |
| RateLimit.InMemoryRateLimiter.NeverMoreThanTheLimit | packages/platform-core/src/platform_core/security/ratelimit.py:63-71 | No window, closed on either side, holds more accepted hits than the limit |
| RateLimit.SpecMeans | packages/platform-core/src/platform_core/security/ratelimit.py:63-71 | The history allows a hit exactly if fewer than the limit came after the beginning of the window |
| RateLimit.WindowHoldsAtMost | packages/platform-core/src/platform_core/security/ratelimit.py:59-71 | Hits that are a window apart every n-th bound every window by n |
| RateLimit.AcceptKeepsSpaced | packages/platform-core/src/platform_core/security/ratelimit.py:63-71 | Accepting below the limit keeps them so |
| RateLimit.AdmittedWhenOldestLeaves | packages/platform-core/src/platform_core/security/ratelimit.py:59-71 | After a refusal the next hit is admitted exactly from when the oldest live hit is a window old |
| RateLimit.DequeRetrySuffices | packages/platform-core/src/platform_core/security/ratelimit.py:68-69 | The returned time plus a second suffices; the time itself, exactly when at most a second or whole seconds are left |
| RateLimit.ScriptDecidesAsSpec | packages/platform-core/src/platform_core/security/ratelimit.py:12-29 | The script accepts exactly as the full history of recorded members would, dropped key or not |
| RateLimit.LiveIsTrimmed | packages/platform-core/src/platform_core/security/ratelimit.py:18-27 | Key expiry and removal by score never lose a hit that still counts |
| RateLimit.ScriptKeepsKey | packages/platform-core/src/platform_core/security/ratelimit.py:18-28 | One run of the script keeps the sorted set a window of the history |
| RateLimit.ScriptRetryIsLeast | packages/platform-core/src/platform_core/security/ratelimit.py:20-24 | Waiting the returned seconds always admits the next hit, and one second less never does |
| RateLimit.ScriptRetryOfAnEmptyKey | packages/platform-core/src/platform_core/security/ratelimit.py:21-24 | With a limit below one the answer is the window in milliseconds |
| RateLimit.AllAreRecorded | packages/platform-core/src/platform_core/security/ratelimit.py:12-56 | Over any hits of any processes all accepted hits are recorded if and only if no accepted hit finds its own member live |
| RateLimit.SharedKeyIsBounded | packages/platform-core/src/platform_core/security/ratelimit.py:12-56 | Any window holds at most the limit and the hits that replaced a member in it |
| RateLimit.UnreplacedKeyIsBounded | packages/platform-core/src/platform_core/security/ratelimit.py:12-56 | At most the limit if no accepted hit replaced one |
| RateLimit.SharedKeyDecidesAsSpec | packages/platform-core/src/platform_core/security/ratelimit.py:12-56 | If none did, the next hit of any process is accepted exactly as the full history of accepted hits says |
| RateLimit.DistinctHitsAreBounded | packages/platform-core/src/platform_core/security/ratelimit.py:49-56 | Hits with different names, from any processes, never exceed the limit in any window |
| RateLimit.OwnKeyRecordsAll | packages/platform-core/src/platform_core/security/ratelimit.py:42-56 | A process that has a key to itself records every hit that is accepted |
| RateLimit.ReplacementOverAdmits | packages/platform-core/src/platform_core/security/ratelimit.py:12-56 | After any accepted hit that replaces a live member, for any limit and history, further hits are computed with which a window holds more than the limit |
| RateLimit.SharedSerialsOverAdmit | packages/platform-core/src/platform_core/security/ratelimit.py:49-56 | Equal names from two processes: three hits are accepted in one window where two are allowed |
| RateLimit.RedisRateLimiter.Hit | packages/platform-core/src/platform_core/security/ratelimit.py:42-56 | Whatever other processes do, the answer is the script's, with its retry time, and it accepts exactly as the full history of recorded hits would |
| RateLimit.RedisStore.NeverMoreThanTheLimit | packages/platform-core/src/platform_core/security/ratelimit.py:12-29 | No window of a shared key holds more recorded hits than the limit |
| SqlScript.SplitSql | packages/platform-core/src/platform_core/db/sqlscript.py:6-37 | The flag loop terminates and cuts where the lexer cuts |
| SqlScript.SemicolonCuts | packages/platform-core/src/platform_core/db/sqlscript.py:26-30 | A semicolon in the open ends a statement |
| SqlScript.CommentIsDropped | packages/platform-core/src/platform_core/db/sqlscript.py:22-25 | A comment is dropped up to the end of its line |
| SqlScript.QuotedStaysWhole | packages/platform-core/src/platform_core/db/sqlscript.py:20-33 | A quoted text stays whole, whatever it holds |
| SqlScript.DollarQuotedStaysWhole | packages/platform-core/src/platform_core/db/sqlscript.py:15-33 | So does a dollar-quoted one |
| SqlScript.OpenQuoteRunsToTheEnd | packages/platform-core/src/platform_core/db/sqlscript.py:20-36 | A quote that is never closed runs to the end of the script |
| SqlScript.OpenDollarsRunToTheEnd | packages/platform-core/src/platform_core/db/sqlscript.py:15-36 | So does an open dollar quote |
| SqlScript.OtherIsKept | packages/platform-core/src/platform_core/db/sqlscript.py:31-33 | Every other character belongs to the statement it stands in |
| SqlScript.StatementsAreThePieces | packages/platform-core/src/platform_core/db/sqlscript.py:26-37 | The statements are the texts between the cuts, stripped, without blank ones |
| SqlScript.LexIsLossless | packages/platform-core/src/platform_core/db/sqlscript.py:13-33 | The tokens spell the script |
| SqlScript.SplitIsAFixpoint | packages/platform-core/src/platform_core/db/sqlscript.py:6-37 | Joining the output with `;` and splitting again gives the output, and that holds of a list exactly if the splitter can return it |
| SqlScript.SplitGivesStatements | packages/platform-core/src/platform_core/db/sqlscript.py:26-37 | No output is blank or padded, and all but the last close their quotes |
| SqlScript.CleanHidesCutsAndComments | packages/platform-core/src/platform_core/db/sqlscript.py:19-29 | In an output every `;` and every `--` is inside quotes |
| SqlScript.SplittingKeepsTheSolid | packages/platform-core/src/platform_core/db/sqlscript.py:6-37 | Only comments, cuts and white space outside quotes are lost; of a script that ends inside a quote, also its final white space |
| Chunker.ChunkText | services/knowledge/src/knowledge_service/embeddings.py:71-92 | The loops terminate and compute the chunks of the text |
| Chunker.PlaceParagraph | services/knowledge/src/knowledge_service/embeddings.py:76-89 | One paragraph is cut and placed |
| Chunker.ParagraphsPartitionTheText | services/knowledge/src/knowledge_service/embeddings.py:73 | Paragraphs have no blank line inside, no outer white space, and hold all other characters in order |
| Chunker.TextIsItsBlocks | services/knowledge/src/knowledge_service/embeddings.py:73 | The text is its blocks with breaks between them, each a newline, white space and a newline: nothing else separates paragraphs |
| Chunker.EveryParagraphIsPlaced | services/knowledge/src/knowledge_service/embeddings.py:71-92 | Every paragraph is in the chunks, in order: its full windows as chunks of their own, its rest inside one |
| Chunker.ChunksOverlap | services/knowledge/src/knowledge_service/embeddings.py:77-89 | Every chunk begins with the last `overlap` characters of the one before it, leading white space aside, or opens a paragraph longer than `size` |
| Chunker.PlaceCases | services/knowledge/src/knowledge_service/embeddings.py:83-89 | A paragraph joins the open chunk exactly if both fit; else that chunk is closed and its end carried on |
| Chunker.PiecesSurvive | services/knowledge/src/knowledge_service/embeddings.py:77-89 | A paragraph of at most `size` characters is whole in one chunk; of a longer one every piece of up to overlap + 1 characters is |
| Chunker.LongerPiecesCanBeCut | services/knowledge/src/knowledge_service/embeddings.py:77-82 | For every window there is a text with a piece of overlap + 2 characters in no chunk |
| Chunker.ChunksAreBounded | services/knowledge/src/knowledge_service/embeddings.py:83-92 | With an overlap of at least 1 no chunk is longer than size + overlap + 2 |
| Chunker.BoundNeedsAnOverlap | services/knowledge/src/knowledge_service/embeddings.py:88 | The bound holds for all texts exactly when the overlap is at least 1 |
| Luhn.LuhnOk | packages/platform-core/src/platform_core/security/redaction.py:35-43 | The loop from the right decides validity |
| Luhn.SumIsTheStandardOne | packages/platform-core/src/platform_core/security/redaction.py:35-43 | Its sum is that of Annex B of ISO/IEC 7812-1, for digit strings of any length |
| Luhn.OneDigitDecides | packages/platform-core/src/platform_core/security/redaction.py:35-43 | Every change of one digit of a valid string is rejected |
| Luhn.SwapIsNoticed | packages/platform-core/src/platform_core/security/redaction.py:35-43 | A swap of neighbours is accepted exactly if they are equal or are 0 and 9 |
| Luhn.CheckDigitExists | packages/platform-core/src/platform_core/security/redaction.py:35-43 | Every digit string has exactly one check digit |
| Luhn.SeparatorsDoNotHide | packages/platform-core/src/platform_core/security/redaction.py:46-48 | A candidate is masked however its digits are separated |
| Luhn.OneWrongDigitIsKept | packages/platform-core/src/platform_core/security/redaction.py:46-48 | Of all texts that differ in one digit at most one is masked |
| Knowledge.KnowledgeService.Create | services/knowledge/src/knowledge_service/service.py:104-119 | A first draft with normalised content, or an error and no row |
| Knowledge.KnowledgeService.Edit | services/knowledge/src/knowledge_service/service.py:127-157 | A frozen row gets a next version, any other turns back into a draft; on an error nothing changes |
| Knowledge.KnowledgeService.Submit | services/knowledge/src/knowledge_service/service.py:159-164 | Only drafts are submitted |
| Knowledge.KnowledgeService.Approve | services/knowledge/src/knowledge_service/service.py:166-191 | The lineage's approved version is retired and the document's chunks are replaced in the same step, or nothing happens |
| Knowledge.KnowledgeService.Archive | services/knowledge/src/knowledge_service/service.py:193-196 | Any row can be archived, and nothing else changes |
| Knowledge.CreateMeans | services/knowledge/src/knowledge_service/service.py:75-119 | A document is created exactly if its dates are in order and its pricing data validates; every column is given |
| Knowledge.EditMeans | services/knowledge/src/knowledge_service/service.py:127-157 | An edit succeeds exactly if the dates and pricing data it leads to are valid; the row carries what the patch says and else what was there, as the next version of a frozen row or in place |
| Knowledge.ApprovalMeans | services/knowledge/src/knowledge_service/service.py:166-183 | Who may approve what, and the error of every refusal |
| Knowledge.RowsAreSound | services/knowledge/src/knowledge_service/service.py:104-191 | Flags, dates, pricing data and approver of every stored row are in order, and rows of one lineage differ in version and are not both approved |
| Knowledge.ApprovingKeepsTable | services/knowledge/src/knowledge_service/service.py:180-185 | At most one version of a lineage is approved, with a distinct approver where required |
| Knowledge.EditingKeepsTable | services/knowledge/src/knowledge_service/service.py:127-157 | Versions of a lineage stay unique, the flags of every row are those of its text, and its dates are in order |
| Knowledge.PatchesSettle | services/knowledge/src/knowledge_service/service.py:145-155 | An empty patch changes nothing and applying a patch twice is applying it once |
| Knowledge.ApprovedTextIsForever | services/knowledge/src/knowledge_service/service.py:131-143 | Over every run an approved row can only still be archived |
| Knowledge.IndexIsTheApprovedText | services/knowledge/src/knowledge_service/service.py:178-190 | A row is in the index exactly if it is that numbered chunk of a document that was approved |
| Knowledge.OneVersionIsSearched | services/knowledge/src/knowledge_service/service.py:224-238 | A search never sees two versions of a lineage |
| Knowledge.ApprovedTextCanBeFound | services/knowledge/src/knowledge_service/service.py:224-238 | Every short piece of a document that is in force is whole in some row that a search under the document's model may rank |
| Knowledge.FoundUnderItsModelOnly | services/knowledge/src/knowledge_service/service.py:224-238 | A search sees something of a document if and only if it is in force and was indexed under the model of the search |
| Knowledge.EditorMayApproveOwnEdit | services/knowledge/src/knowledge_service/service.py:166-172 | The last author of a draft may approve it if and only if distinct approval is off or somebody else started it |
| Knowledge.WriteAndApprove | services/knowledge/src/knowledge_service/service.py:104-191 | One creates a document, any number of authors edit it, it is submitted: the approver is refused if and only if distinct approval is on and they created it; otherwise only unacknowledged flags or the embedding provider stop them, and the approved text is the last author's |
| Knowledge.KnowledgeService.ApproverDidNotStartIt | services/knowledge/src/knowledge_service/service.py:166-172 | With distinct approval, in every reachable state the approver of a version did not start it and is among its authors only by a later edit |
| Risk.ScoreIsMonotone | services/fatma-soc/src/fatma_soc/risk.py:44-65 | More evidence of any kind never lowers the score, and the order of signals does not matter |
| Risk.FloodAddsLittle | services/fatma-soc/src/fatma_soc/risk.py:50-60 | The number of events alone moves the score by at most 16 |
| Risk.Strongest | services/fatma-soc/src/fatma_soc/risk.py:57-59 | The strongest signal dominates |
| Risk.BandsAre | services/fatma-soc/src/fatma_soc/risk.py:34-41 | The four bands of risk begin at 0, 25, 50 and 75 |
| Risk.RoundIsNearest | services/fatma-soc/src/fatma_soc/risk.py:65 | Rounding is to the nearest whole number, halves to the even one |
| Risk.ScoresAreCutOff | services/fatma-soc/src/fatma_soc/risk.py:65 | A score is the rounded risk, cut off at 0 and 100 |
| Risk.WeightsAre | services/fatma-soc/src/fatma_soc/risk.py:12-18 | The weights of the categories |
| Risk.InjectionScores | services/fatma-soc/src/fatma_soc/risk.py:44-65 | The score of one injection attempt by criticality, success and blocking |
| Risk.CorroborationScores | services/fatma-soc/src/fatma_soc/risk.py:44-65 | Two middling signals of different categories score higher than one |
| Incidents.IncidentEngine.Upsert | services/fatma-soc/src/fatma_soc/incidents.py:63-129 | A candidate joins the open incident of its key and opens one exactly if there is none |
| Incidents.IncidentEngine.Transition | services/fatma-soc/src/fatma_soc/incidents.py:137-157 | Exactly the moves of the life cycle; reopening fails if another incident of the key is open |
| Incidents.IncidentEngine.Confirm | services/fatma-soc/src/fatma_soc/incidents.py:159-180 | Confirmed once, and only with the full checklist, references and a justification |
| Incidents.OpenedMeans | services/fatma-soc/src/fatma_soc/incidents.py:63-101 | Every column of the incident that a candidate opens |
| Incidents.SeenMeans | services/fatma-soc/src/fatma_soc/incidents.py:71-114 | The ratchet is a maximum: an incident seen again has the higher of its score and that of all signals and events, and the level of that |
| Incidents.MovesAre | packages/platform-core/src/platform_core/schemas/enums.py:122-133 | The thirteen moves of the life cycle |
| Incidents.MovedMeans | services/fatma-soc/src/fatma_soc/incidents.py:144-153 | The first acknowledgement and resolution and the last containment are stamped |
| Incidents.ChecklistsAreSpecific | services/fatma-soc/src/fatma_soc/risk.py:68-80 | Every checklist has the two general points and at least one more |
| Incidents.SeenAgain | services/fatma-soc/src/fatma_soc/incidents.py:102-114 | The level stays that of the score and neither goes down |
| Incidents.MovedOn | services/fatma-soc/src/fatma_soc/incidents.py:144-153 | Every status but NEW has been acknowledged, every resolved one has its time |
| Incidents.PutKeepsTable | packages/database/alembic/versions/0001_core_schema.py:528-529 | At most one open incident per correlation key |
| Incidents.RiskOnlyRises | services/fatma-soc/src/fatma_soc/incidents.py:102-106 | Over every run score and level only rise and a confirmation keeps its evidence |
| Incidents.CloseSeeReopen | services/fatma-soc/src/fatma_soc/incidents.py:66-69 | A closed incident whose key is seen again cannot be reopened beside the new one |
| Incidents.KeptSignalsKeepTheScore | services/fatma-soc/src/fatma_soc/incidents.py:71-106 | With nothing blocked and all signals kept the ratchet changes nothing |
| Incidents.EventsAreCountedAgain | services/fatma-soc/src/fatma_soc/incidents.py:72 | The same candidate n times adds its events n times |
| Notifications.NotificationService.Enqueue | services/notifications/src/notifications_service/service.py:60-87 | One row per key; a row that comes too late is never sent |
| Notifications.NotificationService.CancelRelated | services/notifications/src/notifications_service/service.py:89-97 | Exactly the related rows still scheduled for later are cancelled, and counted |
| Notifications.NotificationService.Claim | packages/database/alembic/versions/0002_service_roles.py:106-119 | The picked rows, and only they, become SENDING with one attempt more |
| Notifications.NotificationService.Deliver | services/notifications/src/notifications_service/service.py:118-139 | What each outcome makes of a row that is being sent; any other row is left alone |
| Notifications.NotificationService.Receive | services/notifications/src/notifications_service/api.py:68-77 | Receipts touch exactly the rows with that message id |
| Notifications.DeliverStep | services/notifications/src/notifications_service/service.py:122-139 | Delivery keeps every row answered, timely and within its attempts |
| Notifications.SentAtMostOnce | services/notifications/src/notifications_service/service.py:122-139 | The sender is called at most max_attempts times, at most one call did not end in a provider error, whether it succeeded or crashed, and a cancelled row never succeeded |
| Notifications.StatusTellsTheCalls | services/notifications/src/notifications_service/service.py:118-139 | What a status says about the calls of the sender: succeeded, given up after all attempts, skipped, or only errors so far |
| Notifications.AttemptsSpreadOut | services/notifications/src/notifications_service/service.py:137-139 | Attempt k + 1 of any row was claimed at least 60 (2^k - 1) seconds after its first |
| Notifications.WaitDoubles | services/notifications/src/notifications_service/service.py:137-139 | The wait is a minute after the first attempt and doubles with every further one |
| Notifications.RestIsForever | services/notifications/src/notifications_service/service.py:118-139 | Over every run cancelled, given-up and lost rows stay as they are, and after a success the sender is not called again |
| Notifications.LostClaimsAreStuck | services/notifications/src/notifications_service/service.py:99-116 | A claimed row whose worker is gone is never picked again |
| Notifications.LastReceiptCounts | services/notifications/src/notifications_service/api.py:68-77 | Of any sequence of receipts the last one gives the status |

## Left out

- HTTP, drivers, the workflow engine, mail, chat and cloud providers: a provider is a step that answers, fails or never returns.
- Cryptography: hashes are functions that may collide, signatures and tokens are abstract records.
- Roles and service permissions: a caller who may not call does not appear.
- Tenants: each table is that of one tenant, as row-level security presents it.
- Isolation anomalies: a transaction is one step, except in `Protocol` and `Idempotency`, where a process may be interrupted between its remote calls.
- Identifiers are fresh by assumption, as random ones are; clocks do not run backwards.
- Time zones are one fixed offset from UTC. Across a change of daylight saving time the wall-clock arithmetic of the source does not keep slot lengths.
- `BookingRules.from_dicts` merges layers of settings with defaults: only easy members.
- Booking.SchedulingService.Availability: the number, the order and the days of the offers are promised for sorted disjoint working hours and at least one slot asked for; otherwise only that every offer is a free grid slot.
- Slots.Spread: for slots that are not ascending only that offered slots come out, and all of them if there are no more than asked for or none is asked for.
- Slots.CandidateSlots: demands a step of at least one minute, without which the source loops for ever.
- Scanner: findings, fingerprints and scanner logs, and the workflow's own timing.
- Defence.DefenceTable.Sweep: the order and the limit of 100 of the due list are not modelled; any list of due actions may be swept.
- Approvals.ApprovalService.ExpireAll: stands for the SQL function; the service method only calls it.
- Chunker.ChunkText: an overlap of `size` or more makes no progress on a long paragraph and is excluded. The pattern split is a function, as the regular-expression engine is a library.
- Knowledge: ranking, embeddings and vector distances; deletion, which no operation here performs; explicit nulls in patches; pricing answers; a change of the chunk size between runs. Normalisation, injection signals and validation of pricing data are parameters.
- Risk: floating-point rounding; the logarithm is any monotone function with log(1) = 0.
- Incidents: confidences are taken as already rounded; summaries, sources and the timeline are text; storing signals in summarised form is a parameter.
- Incidents.IncidentEngine.Upsert: one candidate at a time; the detector that produces candidates is not part of this model.
- RateLimit.InMemoryRateLimiter.Hit: the limit of a key is fixed and the monotonic clock counts nanoseconds.
- RateLimit.RedisRateLimiter.Hit: one clock for all processes, non-decreasing; text order among members of one score.
- Idempotency: key validation, and cancellation of a run by its caller.
- AuditChain: forwarding to a log collector, and the redaction of metadata, which is a parameter.
- Notifications: templates, consent and recipients, which only decide the outcome of a send; the order in which due rows are claimed.
- Luhn.MaskCard: the pattern that finds candidate digits in text; which characters are decimal digits is a parameter.
