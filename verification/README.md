# manageCallAI in Dafny: queues, limits, wire formats and decisions

This project models the parts of manageCallAI whose correctness depends on order, interleaving or exact text,
and proves what they promise. `dafny verify dfyconfig.toml` checks all of it.

**Webhook delivery queue** (`QueueTables`, `ClaimOrder`, `DeliveryProtocol`, `Delivery*`, `Automation*`).
Every SQL statement is a function from the database before it to the database after it. The worker is a state
machine: any number of overlapping runs of `processDueWebhookDeliveries`, in any number of processes, interleaved
with enqueue, manual retry, dismissal and revocation. A claim is two steps (select and lock, then update and
unlock), each POST and each later write is a step of its own, every write after the POST may be lost
(`ignoreDeliveryError` swallows database errors), and a run may vanish between two steps. `max_attempts` is any
number from 1. The modules prove, for every execution: the invariant of the tables and of who holds which row,
finality, de-duplication, conservation between claims, attempts and manual retries, the circuit breaker, the spacing
of retries, that no POST follows a successful one, a bound on all remaining work, that every fair schedule settles the
queue when nothing is lost, that no row starves while others keep coming, and exactly which rows a lost write leaves
stuck. `DeliveryLaws` says what each step writes, column by column and in plain numbers, without the functions that
define the statements. The
repository and the service are also classes that update their tables in place, statement by statement, proved
against the same functions; a call of the service, whatever other claims have locked, is shown to be an execution of the
protocol.

**Rate limiters** (`RateLimit`, `RateWindows`). The bucket map that counts down and the Redis script that counts up are
two classes; on every timed history they give the same answers. Each window admits exactly `min(limit, takes)`, and
any interval of one window's length at most `2 * limit - 1`, a bound that is reached for every key, limit and window of
at least 2 ms. `docs/ops/rate-limit-topology.md:32` speaks of a sliding window; the code computes a fixed one that starts
with the first call, and the model follows the code. `SlidingIff` says when the difference cannot be seen: a key never
gets more than its limit within one window's length if and only if its limit is one call or its window one millisecond.

**FreeSWITCH event socket** (`EslMessage`, `EslRoundTrip`). `readMessage` and `parsePlainEvent` as loops over a reader,
a printer as specification, the round trip of whole streams with arbitrary bodies, and for every result of the reader
the announced lengths that lead to it. The longest buffer that can be allocated is a parameter.

**Webhook signatures** (`WebhookSignature`). Signer and verifier around an uninterpreted HMAC (RFC 2104). What the worker
sends is accepted exactly inside the replay window; any acceptance means the HMAC. The comparison also accepts one extra
hexadecimal digit after the 64 expected ones, because `Buffer.from(s, 'hex')` drops a digit without a partner
(`AcceptedSpellings` gives the exact set).

**URL redaction** (`UrlRedaction`). The loop changes the list that it is iterating over; it still computes the simple
specification.

**SQL builders** (`SqlBuilders`). Two places that assemble statements from optional inputs, seen as small compilers whose
output must mean the direct update or filter; `Find` is the whole query, from the filter to the newest matching rows.

**Approval decisions** (`Approvals`, `ApprovalOverlap`, `ApprovalSuccess`, `ApprovalService`). `approve` and `reject` as calls that interleave
in any way. The decision is final in every interleaving. That the action runs at most once, and that a rejected request
is never published, hold when calls do not overlap, and so does that a record says success only of an
approved request whose action ran once; `approve` ignores the result of `markApproved`, so for overlapping
calls all three are false. The project shows a concrete overlap for each and the exact condition under which each holds.

**AI provider policy** (`AiPolicy`, `AiPolicyHistory`). A tenant's effective policy and every decision stay inside the
platform policy over any history of updates in which validation and write are separate steps.

Times in the queue are microseconds, in the limiters milliseconds. `Options`, `Numbers`, `FiniteSets`, `Decimals` and `JsText` hold what several
modules share.

## Model

| member | source | states |
|---|---|---|
| DeliverySafety.Reachable | apps/api/src/modules/automation/automation.service.ts:137-238 | In every reachable state of any number of runs, with writes lost and runs gone: each status fixes attempt_count, delivered_at, dismissed_at, claimed_at and last_error; a row is held by at most one run and locked by at most one claim; a held row is processing with the attempt number its run was told; undismissed rows have distinct (webhook_id, event_id) |
| DeliverySafety.InvKept | apps/api/src/modules/automation/automation.repository.ts:103-296 | Each of the thirteen kinds of step, from any state that meets the invariant, leads to one that does |
| DeliverySafety.CommitKeepsHolders | apps/api/src/modules/automation/automation.repository.ts:231-256 | After a claim commits, its rows are held by the claiming run and nobody else, because SKIP LOCKED kept other claims off them |
| DeliveryHistory.ChangesByStatus | apps/api/src/modules/automation/automation.repository.ts:203-296 | A row is claimed only while it still passes the test it was selected under, marked only while processing under its run's attempt number, retried or dismissed only when abandoned |
| DeliveryHistory.NewRow | apps/api/src/modules/automation/automation.repository.ts:166-189 | A row appears only by an enqueue, and each of its columns is given: the tenant, event, event id and max_attempts asked for, pending, attempt_count 0, due and created now, the optional columns empty; its webhook is an active one of the tenant, subscribed, and every earlier row for the event is dismissed |
| DeliveryHistory.FinalForever | apps/api/src/modules/automation/automation.repository.ts:203-296 | A delivered row and a dismissed row never change again, whatever happens later |
| DeliveryHistory.RowsRemain | apps/api/src/modules/automation/automation.repository.ts:203-296 | No statement of the queue deletes a row or changes its webhook, tenant, event id or max_attempts |
| DeliveryHistory.NoSecondRow | db/migrations/0031_webhook_event_ids_and_dlq.sql:19-22 | While a row stays undismissed, the set of all rows of its (webhook_id, event_id) stays the same over any execution: enqueuing the event again adds nothing |
| DeliveryHistory.EnqueueAddsOne | apps/api/src/modules/automation/automation.repository.ts:176-183 | For any webhook: if it is active and subscribed and every earlier row for the event is dismissed, an enqueue adds exactly one row for the event, and that row can be claimed at once; otherwise it adds none |
| DeliveryHistory.Conservation | apps/api/src/modules/automation/automation.repository.ts:203-259 | In every reachable state, times claimed = attempt_count + max_attempts * manual retries, and POSTs sent plus the one still awaited never exceed the claims |
| DeliveryHistory.PostsBounded | apps/api/src/modules/automation/automation.service.ts:169-196 | The POSTs ever sent for a row are at most max_attempts * (1 + manual retries), whatever writes are lost |
| DeliverySuccess.NoPostAfterSuccess | apps/api/src/modules/automation/automation.service.ts:169-230 | After one POST for a row was answered with `ok`, none is ever sent for it again in any execution, whatever writes are lost, runs vanish or retries are asked for |
| DeliverySuccess.DeliveredAfterOneSuccess | apps/api/src/modules/automation/automation.service.ts:186-219 | A row is delivered only after a POST for it was answered with `ok`, and exactly one ever is |
| DeliveryHistory.RetriedIsDue | apps/api/src/modules/automation/automation.repository.ts:203-217 | After a manual retry the row can be claimed at once if and only if its webhook is still active |
| DeliveryHistory.WebhookLocksAlways | apps/api/src/modules/automation/automation.repository.ts:234-243 | FOR UPDATE also locks the joined webhook rows: two claims in flight never hold rows of the same webhook |
| DeliveryLaws.FailureCounts | apps/api/src/modules/automation/automation.repository.ts:124-132 | A failure that is written adds one to failure_count of a webhook that is neither revoked nor disabled, and sets disabled_at to now exactly when four or more were counted before; a revoked or disabled webhook and every other one stay as they are |
| DeliveryLaws.SuccessClears | apps/api/src/modules/automation/automation.repository.ts:134-139 | A success that is written sets failure_count of its webhook to zero and changes no other column and no other webhook |
| DeliveryLaws.FiveFailuresDisable | apps/api/src/modules/automation/automation.repository.ts:124-139 | In every execution five failures written on a webhook without a success in between leave it disabled or revoked |
| DeliveryLaws.MarkWrites | apps/api/src/modules/automation/automation.service.ts:198-230 | A success makes the row delivered now with its response code and no error; a failure gives it up after its last attempt and otherwise makes it due 2 seconds later after the first attempt and 10 seconds later after every other, with the response code and at most 500 characters of the message; no other row changes |
| DeliveryLaws.RetryWrites | apps/api/src/modules/automation/automation.repository.ts:203-217 | A manual retry changes exactly an abandoned undismissed row of the tenant that asks: pending, attempt_count 0, due now, no error, every other column as it was |
| DeliveryLaws.DismissWrites | apps/api/src/modules/automation/automation.repository.ts:219-228 | A dismissal dates exactly an abandoned undismissed row of the tenant that asks, and leaves every other column as it was |
| DeliveryLaws.TenantsAreApart | apps/api/src/modules/automation/automation.repository.ts:203-228 | A retry or a dismissal by a tenant that does not own the row changes nothing at all |
| DeliveryLaws.ClaimTakes | apps/api/src/modules/automation/automation.repository.ts:231-244 | A claim takes only rows that are pending or failed, due, with attempts left, of a webhook neither revoked nor disabled, and neither a row nor a webhook that a claim in flight holds |
| DeliveryLaws.CommitWrites | apps/api/src/modules/automation/automation.repository.ts:245-252 | A committed claim makes each row of its batch processing, with one attempt more and the start of the claim as claimed_at, and changes nothing else |
| DeliveryLaws.OtherWrites | apps/api/src/modules/automation/automation.repository.ts:78-110 | No other step writes a row, a webhook starts active with a counter of zero, and only the clock moves the time |
| DeliveryLaws.ApiWaitsForClaims | apps/api/src/modules/automation/automation.repository.ts:231-244 | A retry, a dismissal and a revocation can happen exactly when no claim in flight holds the row they write |
| DeliveryLaws.FaultsAnyTime | apps/api/src/modules/automation/automation.service.ts:232-238 | A claim may fail, a run may vanish and a write may be lost at any time, and none of these touches the tables |
| DeliveryBreaker.FailureCountIsExact | apps/api/src/modules/automation/automation.repository.ts:124-139 | In every reachable state failure_count is the number of failures written since the last reset while the webhook was neither revoked nor disabled, and it is below 5 while the webhook is not disabled |
| DeliveryBreaker.DisabledOnTheFifth | apps/api/src/modules/automation/automation.repository.ts:125-131 | A step disables a webhook if and only if it writes a failure on it, it is neither revoked nor disabled, and four were counted since the last reset |
| DeliveryBreaker.InactiveForever | apps/api/src/modules/automation/automation.repository.ts:103-139 | No step makes a disabled or revoked webhook active again or moves its disabled_at, although a late success still resets its counter |
| DeliveryBreaker.NothingEntersProcessing | apps/api/src/modules/automation/automation.repository.ts:231-256 | Once a webhook is inactive, the set of its rows in processing only shrinks: a claim in flight has the webhook locked, so none can complete afterwards |
| DeliveryBreaker.PostsAfterOpening | apps/api/src/modules/automation/automation.service.ts:137-196 | The POSTs sent to a webhook after it became inactive number at most its rows in processing at that moment |
| DeliverySpacing.SpacingAlways | apps/api/src/modules/automation/automation.service.ts:221-228 | In every reachable state consecutive claims of a row in one retry epoch are at least 2 seconds apart after the first attempt and 10 seconds after every later one, a failed row is not due before that pause has passed, claimed_at is the time of the last claim, and delivered_at is not before it |
| DeliverySpacing.RetrySpacing | apps/api/src/modules/automation/automation.service.ts:221-228 | In one epoch the n-th claim comes at least 2 + 10 (n - 2) seconds after the first |
| DeliveryTermination.PotentialStep | apps/api/src/modules/automation/automation.service.ts:137-230 | Without new rows and manual retries no step raises the potential, and every claim, POST and later write lowers it |
| DeliveryTermination.WorkIsBounded | apps/api/src/modules/automation/automation.service.ts:137-230 | So the number of claims, POSTs and writes still to come is at most the potential of the present state: every schedule quiesces |
| DeliveryLiveness.NothingStuck | apps/api/src/modules/automation/automation.service.ts:198-238 | As long as no write is lost and no run vanishes, every row in processing is held by a run |
| DeliveryLiveness.QuietIffSettled | apps/api/src/modules/automation/automation.service.ts:137-149 | With no run left and nothing lost, no claim will ever find work again if and only if every row of every active webhook is delivered or abandoned |
| DeliveryLiveness.CanSettle | apps/api/src/modules/automation/automation.service.ts:137-230 | From every such state, and for every way in which receivers answer, the workers alone have a continuation that ends with no run left and every row of an active webhook delivered or abandoned |
| DeliveryFairness.EveryFairScheduleSettles | apps/api/src/modules/automation/automation.service.ts:137-230 | For every infinite schedule without losses and new work in which runs keep moving, the clock passes and the worker keeps polling (again and again without meeting stray locks): from some moment on no run holds or locks anything and every row of a still active webhook is delivered or abandoned, for ever |
| DeliveryStarvation.NoRowStarves | apps/api/src/modules/automation/automation.repository.ts:230-259 | The same fairness, with any enqueues and manual retries going on for ever: every row that is not delivered or abandoned some later time is, or its webhook is revoked or disabled, provided that no claim meets a stray lock on that row |
| DeliverySchedules.FairScheduleExists | apps/api/src/modules/automation/webhook-delivery.ts:12-21 | From every state in which nothing is stuck, and whatever the receivers answer, such a schedule begins |
| DeliveryLosses.StuckForever | apps/api/src/modules/automation/automation.service.ts:232-238 | A row in processing that no run holds, because a write was lost or a run vanished, never changes again in any execution |
| DeliveryLosses.MovesOnIffHeld | apps/api/src/modules/automation/automation.service.ts:211-238 | A row in processing can still leave it in some continuation if and only if some run holds it |
| ClaimOrder.ClaimBatchIsSortThenTake | apps/api/src/modules/automation/automation.repository.ts:241-243 | A set of min(limit, candidates) rows with no better candidate left behind is the same as a prefix of some sorted listing of the candidates: both directions |
| ClaimOrder.PrefixIsClaimBatch | apps/api/src/modules/automation/automation.repository.ts:241-242 | Every sorted listing, cut after `limit` rows, is such a batch |
| ClaimOrder.BatchInColumns | apps/api/src/modules/automation/automation.repository.ts:231-244 | A claim batch in the columns of its rows: which rows it may take, and that it is full and takes nothing later than a row that it leaves behind |
| AutomationRepository.ScanIsClaimBatch | apps/api/src/modules/automation/automation.repository.ts:241-243 | A scan of the sorted due rows that skips locked ones and stops when full has taken a least prefix of the unlocked ones |
| AutomationRepository.Repository.LockDue | apps/api/src/modules/automation/automation.repository.ts:232-244 | The selection under SKIP LOCKED, in columns: only pending or failed rows that are due, with attempts left, of active webhooks, unlocked; if such a row is left behind, the batch is full and takes none that comes later by (next_attempt_at, created_at) |
| AutomationRepository.Repository.DueInOrder | apps/api/src/modules/automation/automation.repository.ts:233-241 | The due rows of active webhooks, each once, sorted by (next_attempt_at, created_at) |
| AutomationRepository.Repository.CommitClaim | apps/api/src/modules/automation/automation.repository.ts:245-252 | Exactly the rows of the batch become processing with one attempt more and the start of the transaction as claimed_at |
| AutomationRepository.Repository.EnqueueWebhookDeliveries | apps/api/src/modules/automation/automation.repository.ts:166-189 | Exactly one new row, under an unused id, for every active webhook of the tenant that subscribes to the event and has only dismissed rows for it, and for no other; every column of the new rows is given, max_attempts as asked; nothing else changes |
| AutomationRepository.Repository.HasConflict | db/migrations/0031_webhook_event_ids_and_dlq.sql:19-22 | Whether the partial unique index holds an entry for the key |
| AutomationRepository.Repository.RetryAbandonedDelivery | apps/api/src/modules/automation/automation.repository.ts:203-217 | Answers a row if and only if the row is abandoned, undismissed and of the tenant that asks; then the row is pending, with attempt_count 0, due now and without error; for any other row or tenant it changes nothing and answers None |
| AutomationRepository.Repository.DismissAbandonedDelivery | apps/api/src/modules/automation/automation.repository.ts:219-228 | Answers true if and only if the row is abandoned, undismissed and of the tenant that asks; then dismissed_at is now and every other column as it was; otherwise nothing changes |
| AutomationRepository.Repository.MarkWebhookDeliveryDelivered | apps/api/src/modules/automation/automation.repository.ts:261-275 | Sets status, delivered_at and the response code and clears the error, on that row only |
| AutomationRepository.Repository.MarkWebhookDeliveryFailed | apps/api/src/modules/automation/automation.repository.ts:277-296 | Abandons the row when its attempts are used up, otherwise fails it and makes it due after the delay; keeps at most 500 characters of the error |
| AutomationRepository.Repository.RecordDeliveryFailure | apps/api/src/modules/automation/automation.repository.ts:124-132 | Counts a failure on a webhook that is neither revoked nor disabled, disables it now when the count reaches five, and otherwise changes nothing |
| AutomationRepository.Repository.ResetDeliveryFailure | apps/api/src/modules/automation/automation.repository.ts:134-139 | Clears the counter of any webhook with that id, active or not |
| AutomationRepository.Repository.RevokeWebhook | apps/api/src/modules/automation/automation.repository.ts:103-110 | Revokes a webhook of the tenant that is not revoked yet, and says whether it did |
| AutomationService.Service.DeliverClaimedWebhook | apps/api/src/modules/automation/automation.service.ts:151-230 | For every answer, elapsed time and choice of lost writes, in columns: the row delivered, abandoned, or failed and due 2 or 10 seconds later, the counter of its webhook, the message kept, the clock; true exactly for a response with `ok` |
| AutomationService.Service.ProcessDueWebhookDeliveries | apps/api/src/modules/automation/automation.service.ts:137-149 | Claims one least batch, delivers every claimed row once in some order; `delivered` counts the accepted answers and claimed = delivered + failed |
| AutomationService.DeliverAllIsExecution | apps/api/src/modules/automation/automation.service.ts:142-146 | The delivery loop is an execution of the protocol in which one run posts, counts and marks row by row, whatever other rows and webhooks are locked |
| AutomationService.ProcessRefinesProtocol | apps/api/src/modules/automation/automation.service.ts:137-149 | Whatever a call makes of the tables, with any claims of other runs in flight, the protocol can do with one run that leaves no trace, so everything proved of executions holds for it |
| AutomationService.EnqueueNeverWaits | apps/api/src/modules/automation/automation.repository.ts:166-189 | In every state an enqueue of any event with any max_attempts from 1 is a step of the protocol |
| Decimals.ValueOfDecimal | apps/api/src/modules/automation/automation.service.ts:162 | A number printed in decimal has its own value when read by position |
| Decimals.NumeralsGrow | apps/api/src/modules/automation/automation.service.ts:162 | Appending a digit to a numeral is multiplying by ten and adding: most significant digit first, no leading zeros |
| Decimals.ValueGrows | apps/freeswitch-agent/internal/esl/message.go:38 | The value of any string of digits, leading zeros or not, by its last digit |
| RateLimit.InMemoryRateLimiter.Take | apps/api/src/security/rate-limit.ts:34-50 | Answer and new bucket map from the old map, in columns: allowed exactly when something is left, one less is left then, never below zero; a fresh bucket from the deadline on; only this key changes |
| RateLimit.RedisRateLimiter.Take | apps/api/src/security/rate-limit.ts:75-87 | Script and reply together, in columns: the counter under `prefix:key` after the call with its deadline, allowed exactly up to the limit, what is left, and when it resets |
| RateLimit.CoupledAlways | apps/api/src/security/rate-limit.ts:34-87 | After every monotone history, for every key: bucket and counter are live at the same moments with the same deadline, and what is left is max(0, limit - count) |
| RateLimit.LimitersAgree | apps/api/src/security/rate-limit.ts:24-87 | On every timed history over any keys both limiters return the same (allowed, remaining, resetAt) at every call, although Redis keeps counting denied calls |
| RateLimit.OtherKeysDoNotMatter | apps/api/src/security/rate-limit.ts:36-48 | Leaving out all calls on other keys leaves the bucket of a key as it is |
| RateLimit.AnswerDependsOnOwnKey | apps/api/src/security/rate-limit.ts:34-50 | So an answer is the one given after the earlier calls on the same key alone |
| RateWindows.WindowAdmitsExactly | apps/api/src/security/rate-limit.ts:34-50 | In every history each window of a key admits exactly min(limit, calls in it) |
| RateWindows.CallPlaced | apps/api/src/security/rate-limit.ts:37-40 | Every call lies inside its window, and the window was opened by an admitted call at its very start |
| RateWindows.IntervalBound | apps/api/src/security/rate-limit.ts:34-50 | Any half-open interval of one window's length contains at most 2 * limit - 1 admitted calls of a key |
| RateWindows.BoundIsReached | apps/api/src/security/rate-limit.ts:34-50 | For every key, every limit and every window of at least 2 ms some history is granted 2 * limit - 1 calls within one window's length |
| RateWindows.SlidingIff | apps/api/src/security/rate-limit.ts:34-50 | For every key: no interval of one window's length is ever granted more than the limit if and only if the limit is 1 or the window 1 ms |
| EslMessage.Reader.ReadLine | apps/freeswitch-agent/internal/esl/message.go:20-23 | ReadString: the line up to and including the first newline and the rest after it, or an error with everything consumed |
| EslMessage.Reader.ReadFull | apps/freeswitch-agent/internal/esl/message.go:43-46 | io.ReadFull: exactly n bytes, or EOF when there were none and an unexpected EOF when there were some |
| EslMessage.Reader.ReadMessage | apps/freeswitch-agent/internal/esl/message.go:16-54 | Result and unread bytes are those of the recursive specification for every input, with all four failures; the lines of that specification mean what MalformedLineIsSkipped and FieldLineIsRead say |
| EslMessage.ParsePlainEvent | apps/freeswitch-agent/internal/esl/message.go:56-72 | The loop computes the fold over the split lines, whose lines mean what MalformedLineChangesNothing and LastLineOfEvent say |
| EslRoundTrip.DecimalLengthIsRead | apps/freeswitch-agent/internal/esl/message.go:37-41 | Atoi(TrimSpace(n in decimal)) = n for every 64-bit length |
| EslRoundTrip.NumberIsRead | apps/freeswitch-agent/internal/esl/message.go:38-41 | A number in decimal, with either sign or none, is read back whatever white space surrounds it, and refused exactly when it does not fit 64 bits |
| EslRoundTrip.NotANumber | apps/freeswitch-agent/internal/esl/message.go:38-41 | Anything but digits after at most one sign is refused |
| EslRoundTrip.SpacesOfUnicode | apps/freeswitch-agent/internal/esl/message.go:38 | The bytes that are trimmed are the UTF-8 encodings of the white space of Unicode, and no others; that of JavaScript differs in two characters |
| EslRoundTrip.ResultIff | apps/freeswitch-agent/internal/esl/message.go:36-53 | After any header fields, with any bytes behind them: each of the four failures and success, for exactly which announced lengths it occurs; the allocation fails if and only if the length is below zero or beyond what can be allocated |
| EslRoundTrip.CutShort | apps/freeswitch-agent/internal/esl/message.go:20-46 | A stream that ends anywhere inside a printed message is an error, never a message: EOF up to the blank line, unexpected EOF inside the body |
| EslRoundTrip.ReadPrinted | apps/freeswitch-agent/internal/esl/message.go:16-54 | A printed message is read back exactly and reading stops at its last byte, whatever follows |
| EslRoundTrip.StreamRoundTrip | apps/freeswitch-agent/internal/esl/message.go:16-54 | Reading a stream of printed messages gives exactly those messages and leaves exactly the tail |
| EslRoundTrip.CompleteIsStable | apps/freeswitch-agent/internal/esl/message.go:16-54 | For arbitrary bytes: a message that is read is read the same whatever follows, and all that follows stays unread |
| EslRoundTrip.AnyBodyIsWellFormed | apps/freeswitch-agent/internal/esl/message.go:36-48 | With its length in decimal every body can be sent, blank lines and newlines included |
| EslRoundTrip.ParsersAgree | apps/freeswitch-agent/internal/esl/message.go:19-72 | On every body, parsePlainEvent gives the headers that readMessage finds in the body's non-blank lines followed by a blank one, the last duplicate winning in both |
| EslRoundTrip.MalformedLineChangesNothing | apps/freeswitch-agent/internal/esl/message.go:59-69 | Inserting a line without ": ", blank or malformed, between any two parts of a body changes no field |
| EslRoundTrip.LastLineOfEvent | apps/freeswitch-agent/internal/esl/message.go:56-72 | What a line at the end of any body means: nothing without ": ", and otherwise one field, the text before the first ": " and the text after it without carriage returns at its end, which wins over earlier fields of that name |
| EslRoundTrip.MalformedLineIsSkipped | apps/freeswitch-agent/internal/esl/message.go:24-32 | readMessage skips any line without ": "; only a line that is empty but for carriage returns ends the header, and what follows it stays unread |
| EslRoundTrip.FieldLineIsRead | apps/freeswitch-agent/internal/esl/message.go:24-32 | readMessage takes the text before the first ": " of a line as the name and the rest, without carriage returns at its end, as the value, which replaces an earlier one |
| WebhookSignature.HexRoundTrip | apps/api/src/modules/automation/automation.repository.ts:28-30 | Decoding the hexadecimal digest gives the bytes back |
| WebhookSignature.HexAt | apps/api/src/modules/automation/automation.repository.ts:28-30 | The digest text has two lower-case digits for each byte, the greater half first |
| WebhookSignature.HexDigits | apps/api/src/modules/automation/webhook-signature.ts:42 | The digits that are accepted are 0 to 9 and a to f in either case, and each has the value of its place |
| WebhookSignature.ParsePrinted | apps/api/src/modules/automation/webhook-signature.ts:23-26 | parseInt reads a printed number back with its sign, whatever white space precedes and whatever non-digit follows |
| WebhookSignature.ParseNothing | apps/api/src/modules/automation/webhook-signature.ts:23-26 | Without a digit after white space and at most one sign it reads no number |
| WebhookSignature.SignerMeetsVerifier | apps/api/src/modules/automation/automation.service.ts:161-182 | For every secret, body and timestamp the two headers of a delivery are the HMAC of timestamp, period and body behind `sha256=` and the timestamp; they are accepted, with the prefix or without, if and only if the timestamp lies within the window, 300 seconds by default, and otherwise rejected for that reason |
| WebhookSignature.VerdictIs | apps/api/src/modules/automation/webhook-signature.ts:17-39 | The verdict on any input: accepted if and only if both headers are present, the timestamp is a number inside the window (300 seconds by default) and the signature, without `sha256=`, is hexadecimal and decodes to the HMAC of timestamp, period and body; otherwise the first of these that fails is the reason |
| WebhookSignature.CanonicalDetermines | apps/api/src/modules/automation/webhook-signature.ts:36 | The signed text determines timestamp and body: no other pair has the same text, so the HMAC binds both |
| WebhookSignature.AcceptedSpellings | apps/api/src/modules/automation/webhook-signature.ts:41-47 | A signature passes the comparison if and only if its first 64 digits spell the expected ones in either case and at most one more hexadecimal digit follows |
| UrlRedaction.UrlSearchParams.Set | apps/api/src/logging/logger.ts:79 | `set` as section 6.2 of the WHATWG URL Standard has it: the first tuple of the name changed, the others of that name removed, appended when there is none |
| UrlRedaction.SetFirst | apps/api/src/logging/logger.ts:79 | A tuple of that name: everything before it stays, it gets the value, and behind it only the tuples of that name go |
| UrlRedaction.SetAbsent | apps/api/src/logging/logger.ts:79 | No tuple of that name: the new one comes last |
| UrlRedaction.RedactParams | apps/api/src/logging/logger.ts:76-81 | The loop over the live list skips no tuple: it computes the one-pass specification |
| UrlRedaction.RedactSensitive | apps/api/src/logging/logger.ts:76-90 | With the logger's own test for names: whatever the list, every value of a name that ends with _token or contains secret is [REDACTED], and the tuples of other names are as they were, in order |
| UrlRedaction.SensitiveNames | apps/api/src/logging/logger.ts:87-90 | A name is sensitive if and only if in lower case it is something followed by _token or has secret somewhere |
| UrlRedaction.OthersUnchanged | apps/api/src/logging/logger.ts:77-81 | The tuples of other names are unchanged and in order |
| UrlRedaction.SensitiveKeptOnce | apps/api/src/logging/logger.ts:77-81 | Each sensitive name appears exactly once, in order of first occurrence, with [REDACTED] |
| UrlRedaction.Idempotent | apps/api/src/logging/logger.ts:72-85 | Redacting twice is redacting once |
| UrlRedaction.SecretsDoNotMatter | apps/api/src/logging/logger.ts:72-85 | Two lists that differ only in values of sensitive names are redacted to the same list |
| SqlBuilders.BuildUpdate | apps/api/src/modules/agent-workspace/agent-workspace.repository.ts:77-83 | The pushed fragments use $1 to $n, each once and in order, with n values in the same order; no fragment exactly when there is no change |
| SqlBuilders.UpdateMeansDirect | apps/api/src/modules/agent-workspace/agent-workspace.repository.ts:81-99 | Evaluating the SET list, `updated_at = NOW()` included, changes exactly the given columns to the given values |
| SqlBuilders.AgentWorkspaceRepository.Update | apps/api/src/modules/agent-workspace/agent-workspace.repository.ts:76-102 | On any table, in columns: only the row with that id and tenant, each given column set and each other kept, updated_at moved unless nothing was given; the built statement never fails for a missing parameter |
| SqlBuilders.BuildConditions | apps/api/src/modules/audit/audit.repository.ts:55-78 | The conditions use $1 to $n, each once and in order, with n values, and hold of a row exactly when tenant and every given filter do |
| SqlBuilders.PushIf | apps/api/src/modules/audit/audit.repository.ts:59-78 | One optional push adds one conjunct with the next placeholder and leaves the meaning of the others alone |
| SqlBuilders.AnswerIsFound | apps/api/src/modules/audit/audit.repository.ts:80-89 | Every answer the database may give to a statement that means the filter: rows of the log, all matching, newest first, min(limit or 100, 500, matching rows) of them, no newer matching row left behind; an error exactly for a negative limit |
| SqlBuilders.MatchesInColumns | apps/api/src/modules/audit/audit.repository.ts:55-78 | A row passes a filter if and only if it is of the tenant and every field that is given and not empty equals its column, `since` being not later than created_at |
| SqlBuilders.FoundInNumbers | apps/api/src/modules/audit/audit.repository.ts:80-89 | What find promises in plain numbers: 100 rows unless a limit is given, never more than 500, no fewer than match, newest first, and no newer matching row left behind |
| SqlBuilders.AuditRepository.Find | apps/api/src/modules/audit/audit.repository.ts:54-90 | The same of the whole method on any log and filter: build the conditions, run the statement, return its answer |
| Approvals.LeavesPendingOnce | apps/api/src/modules/approvals/approval.repository.ts:55-77 | In every interleaving at most one decision takes effect, and one has exactly when the request is no longer pending |
| Approvals.DecisionIsFinal | apps/api/src/modules/approvals/approval.repository.ts:55-77 | After the decision neither status nor decision_by ever changes |
| Approvals.SerialDecisions | apps/api/src/modules/approvals/approval.service.ts:38-138 | When calls do not overlap, throwing at any point included: the action runs at most once, a record says success only if the request is approved and the action ran once, a rejected request is never published |
| Approvals.ActionsBounded | apps/api/src/modules/approvals/approval.service.ts:38-90 | In every interleaving the action runs at most once for each call that found the request pending |
| Approvals.OnlyTheRecordedAction | apps/api/src/modules/approvals/approval.service.ts:43-90 | In every interleaving the action that runs, publish or rollback, is the one of the associated publish record |
| Approvals.ThrowsAnyTime | apps/api/src/modules/approvals/approval.service.ts:38-138 | A call may throw before any of its statements, and the rows then stay as they are |
| ApprovalOverlap.AtMostOnceIff | apps/api/src/modules/approvals/approval.service.ts:46-90 | For a decided request: every continuation runs the action at most once if and only if the actions already run and the approve calls past their read are together at most one |
| ApprovalOverlap.ActionsAlwaysApproved | apps/api/src/modules/approvals/approval.service.ts:38-90 | Only approve calls ever reach the action |
| ApprovalOverlap.TwoApprovals | apps/api/src/modules/approvals/approval.service.ts:38-90 | A reachable overlap of two approvals after which the action will run twice |
| ApprovalOverlap.RejectedYetPublished | apps/api/src/modules/approvals/approval.service.ts:38-138 | A reachable overlap in which the request is rejected and the action will still run |
| ApprovalOverlap.NeverPublishedIff | apps/api/src/modules/approvals/approval.service.ts:46-90 | For a rejected request: in every continuation the action has never run if and only if it has not run yet and no approve call is past its read |
| ApprovalOverlap.RunIsPath | apps/api/src/modules/approvals/approval.service.ts:38-138 | The steps of such an overlap form a stretch of an execution, so the two overlaps above are reachable |
| ApprovalSuccess.HonestIff | apps/api/src/modules/approvals/approval.service.ts:46-107 | For a decided request: in every continuation a record that says success belongs to an approved request whose action ran exactly once, if and only if no success is said or under way, or the request is approved and the actions run and to come are at most one |
| ApprovalSuccess.RejectedYetSuccess | apps/api/src/modules/approvals/approval.service.ts:38-138 | The overlap of RejectedYetPublished continued: the request is rejected and its record says success |
| ApprovalSuccess.PendingAtMostOnceIff | apps/api/src/modules/approvals/approval.service.ts:38-90 | For a request that is still pending: every continuation runs the action at most once if and only if it has no publish record and did not run twice before |
| ApprovalService.Service.MarkApproved | apps/api/src/modules/approvals/approval.repository.ts:55-65 | Approves a pending request in the name of the user and nothing else, and says whether it did |
| ApprovalService.Service.MarkRejected | apps/api/src/modules/approvals/approval.repository.ts:67-77 | Rejects a pending request in the name of the user and nothing else, and says whether it did |
| ApprovalService.Service.UpdatePublishRecordResult | apps/api/src/modules/approvals/approval.repository.ts:79-84 | Sets the result of the associated record, if there is one |
| ApprovalService.Service.Approve | apps/api/src/modules/approvals/approval.service.ts:38-108 | For every statement at which it may throw: the request approved by this user, the action of the record run once, the record a success, each exactly from its statement on, as in the protocol; each of the five outcomes exactly where the code has it |
| ApprovalService.Service.Reject | apps/api/src/modules/approvals/approval.service.ts:110-138 | The same for reject: the request rejected by this user, no action, the record failed from its statement on; each outcome exactly |
| ApprovalService.WholeCall | apps/api/src/modules/approvals/approval.service.ts:38-138 | What one call alone makes of the tables in its first n statements, for every n: nothing before the mark, nothing for a request that is not pending or, for approve, has no record |
| AiPolicy.AiPolicyService.ValidatePlatformPolicy | apps/api/src/modules/ai-policy/ai-policy.service.ts:126-136 | Passes if and only if the deterministic fallback stays on and no allowed model of any feature is blank; an error names the fallback first, and otherwise a feature that really has a blank model |
| AiPolicy.PlatformInputInColumns | apps/api/src/modules/ai-policy/ai-policy.service.ts:126-136 | A platform policy is valid if and only if the deterministic fallback is not switched off and every allowed model has a character that is no white space |
| AiPolicy.AiPolicyService.UpdatePlatformPolicy | apps/api/src/modules/ai-policy/ai-policy.service.ts:40-46 | Stores a valid policy and leaves the stored one alone otherwise |
| AiPolicy.AiPolicyService.ValidateTenantOverride | apps/api/src/modules/ai-policy/ai-policy.service.ts:138-146 | Passes if and only if every preferred provider is allowed by the platform for its feature; an error names a feature whose preference is not |
| AiPolicy.AiPolicyService.UpdateTenantPolicy | apps/api/src/modules/ai-policy/ai-policy.service.ts:56-62 | Writes an override only when every preference is allowed: the switch of the input, each given feature as given and each other disabled without preference; returns the effective policy built from it |
| AiPolicy.AiPolicyService.RequireProviderBackedAccess | apps/api/src/modules/ai-policy/ai-policy.service.ts:64-109 | Denies exactly a request for a provider that is not allowed; whatever it returns is allowed or asked for `auto` |
| AiPolicyHistory.TenantIsContained | apps/api/src/modules/ai-policy/ai-policy.service.ts:148-192 | For any stored platform policy and override: a feature is enabled if and only if platform and tenant both opted in for service and feature, its lists and limit are those of the platform, and so it never exceeds them |
| AiPolicyHistory.BuiltInPolicy | apps/api/src/modules/ai-policy/ai-policy.service.ts:224-266 | Without a stored policy, or for a feature that it does not list, everything is off, with the built-in lists of providers and limits of 4000 and 2000 characters and none |
| AiPolicyHistory.PreferenceSurfacesIff | apps/api/src/modules/ai-policy/ai-policy.service.ts:216-222 | A stored preference surfaces if and only if the platform allows it now |
| AiPolicyHistory.AllowedIff | apps/api/src/modules/ai-policy/ai-policy.service.ts:72-124 | A request is allowed if and only if it names a provider the platform allows, within the input limit, and platform and tenant both opted in for service and feature; the effective provider is then the requested one and otherwise `auto`, with the first failing condition as the reason |
| AiPolicyHistory.TighteningIsMonotone | apps/api/src/modules/ai-policy/ai-policy.service.ts:72-109 | Tightening the platform policy never allows a request that was denied |
| AiPolicyHistory.OnlyTighteningIsSafe | apps/api/src/modules/ai-policy/ai-policy.service.ts:72-109 | Conversely, a policy under which nothing new is ever allowed is tighter wherever a request could be served |
| AiPolicyHistory.PlatformIsReplaced | apps/api/src/modules/ai-policy/ai-policy.service.ts:40-46 | Any valid platform policy may be saved at any time and replaces the stored one as it is |
| AiPolicyHistory.WriteFollowsValidation | apps/api/src/modules/ai-policy/ai-policy.service.ts:56-62 | A validated update may be written at once, which stores exactly it for its tenant, or never, which changes nothing |
| AiPolicyHistory.PreferencesAreVetted | apps/api/src/modules/ai-policy/ai-policy.service.ts:56-62 | Over every history of interleaved updates each stored preference was allowed by the platform policy of some earlier moment |
| AiPolicyHistory.DecisionsAreContained | apps/api/src/modules/ai-policy/ai-policy.service.ts:48-54 | Although a request reads the platform policy and the override at two different moments, an allowed decision and a surfaced preference stay inside the platform policy it read |

## Left out

- Fairness of the scheduler: a premise of DeliveryFairness, not a result; the timer and the event loop are not modelled.
- Webhook columns that no step depends on: payload, url, signing secret, name, updated_at, dismiss_reason, and the delivery log with its own swallowed write.
- Deletion of webhooks, tenants and rows by cascade or retention.
- PostgreSQL itself: a statement is one atomic step, NOW() is the start of its transaction, FOR UPDATE without OF locks the rows of both joined tables, and an insert is never held up by a lock. A queue row whose webhook turns out to be locked stays locked to the end of the claim that skipped it; such stray locks are any set of rows at each claim (`SelectDue`), not traced to the claim that caused them.
- The timeout of a POST and the interval of the worker timer: any time may pass between two steps.
- The X-ManageCall-Delivery header: the claim does not return event_id, so it never carries one.
- Redis itself: the script is atomic; the clocks of Redis and of the application are one monotone clock, and each key has one policy with a positive window.
- readNextReply and the dispatchers of the Go agent: they rest on a single short read and on endpoints outside the core.
- WebhookSignature.VerdictIs: numbers are unbounded integers, while the code rounds a timestamp beyond 2^53 (some 285 million years) to a double, and the timing of the comparison is not modelled.
- WebhookSignature.ParsePrinted: reads every decimal exactly, for the same reason.
- The text of URLs: splitting at `?`, percent-encoding and toString; toLowerCase is a parameter.
- The text of SQL statements: fragments are data; type errors, constraint violations and AuditRepository.log are not part of the model.
- Approvals: the two kinds of object that an action works on, the rows it changes, audit events, the read that refreshes the reply, the transition to `expired`, and several publish records for one request.
- AI policy: timestamps, actors, messages, the fixed governance flags of the answer, and which of several offending features an error names (the key order of the input decides).
- Controllers, the UI, the SDK, IVR validation and simulation, agent availability, recommendations and other finite tables: they would add easy members only.
