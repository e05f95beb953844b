# SMTP relay: queue protocol, admission and message folding in Dafny

The relay accepts mail over SMTP, stores one job per recipient in a `jobs` table, and lets several workers send
batches of jobs through a bulk API. This project models that table, the workers, the SMTP front and the MIME
folder, and proves what holds in every run. `dafny verify dfyconfig.toml` checks all of it.

## How it is built

- `JobTable.dfy` — rows, and the effect of each SQL transaction as a function from table to table.
- `BatchCut.dfy` — the greedy cut of a queue into batches, and `splitBatches`. `Store.dfy` — the store as an object, each method one
  transaction with the source's loops.
- `Dispatch.dfy`, `Worker.dfy` — failure classes, backoff, the split of a refused batch, `processBatch`.
- `Protocol.dfy` — the concurrent protocol: claims, API calls, marks that commit or fail, crashes, stale requeues,
  DLQ replays, retry-now, enqueues and clock ticks, interleaved freely. A step carries every outside choice, so a
  run is a sequence of steps. The state also keeps a history: the log of API calls and, per job, stale requeues,
  replays, acceptances whose mark was lost, and the owner of the current lease.
- `JobView.dfy`, `Simulation.dfy`, `Invariant.dfy` — the life of one job seen alone, the proof that every protocol
  step is one step of that small machine for every job, and the invariant over all runs.
- `Delivery.dfy`, `Leases.dfy`, `Drain.dfy`, `Fairness.dfy`, `Exactness.dfy`, `Overtaking.dfy` — the theorems over whole
  runs, and the runs that show their bounds exact.
- `Admission.dfy`, `Session.dfy` — connection accounting and the session. `Mime.dfy` — content folding and the
  per-recipient messages.

Parameters stand for what the program does not decide: which order the database gives to rows of equal age (any
order, and in each of the two SELECTs of a claim its own), whether a transaction commits, what the API answers, the
jitter factor, fresh ids, the clock, the rate limiter's verdict, parsed addresses and the marshalled payload.
"Accepted" means that `Send` reported no error. A crash step is that of one worker; a crash of the process is one such
step for each worker.

## What the proofs show about the code

- A mark asks only for `status='processing'`, so a worker whose lease ran out can mark a job another worker has
  claimed since. Even so, a job is accepted at most once more than it was requeued as stale
  (`Delivery.DuplicateBound`), and for every n some run reaches n + 1 acceptances after n requeues
  (`Exactness.DuplicateBoundExact`).
- "An unfinished job has used fewer than RETRY_MAX_ATTEMPTS attempts" is false. Without replays it holds exactly
  when there is one worker, or when the limit is 1 (`Exactness.BelowLimitIff`); otherwise the counter reaches
  limit + workers - 2 on a job still waiting for retry, and no more. Each DLQ replay can add exactly one, because it
  does not reset the counter, so with a replay the claim fails in every configuration
  (`Exactness.ReplayBudgetExact`).
- The documentation speaks of duplicates on ambiguous failures only (README.md:27 of the repository). Late marking is
  a second source: with one worker or many, for every n some run in which no acknowledgement is lost accepts a job
  n + 1 times (`Exactness.LateMarkDuplicates`). "A second acceptance needs a crash or a failed mark after the first" holds
  as long as no stale requeue takes the job from a worker that still holds it (`Leases.LostAckNeeded`), so in
  particular when every worker marks within its lease. The condition is exact: a stale requeue keeps the statement
  true in every continuation if and only if the job has no holder, or its only holder was refused and is the only
  worker there is (`Leases.RequeueSafeIff`).
- Once stale leases are requeued, the API accepts and marks commit, the queue drains from every reachable state,
  whatever rows the database lists first and however the workers interleave. A worker refused before then may still
  write its late mark, so "one claim per unfinished job" is false: claims are at most the unfinished jobs plus the jobs
  such workers put back for retry (`Drain.DrainFromAnywhere`), and some runs take that many
  (`Exactness.DrainBoundExact`). When no worker has anything left to do, now or after waiting, every job is finished:
  sent, or a dead letter of a worker that was refused with it before.
- An inline part that is neither text/plain nor text/html and has no filename is dropped from the message, at any
  depth (`Mime.PruneKeepsFold`, `Mime.LeafLostIff`); the last branch of the content switch
  (internal/mimeparse/transformer.go:167-171) can never add it.

## Model

| member | source | states |
|---|---|---|
| JobTable.EnqueuedRows | internal/queue/sqlite_store.go:96-126 | an enqueue adds exactly one fresh queued row per message, under the drawn ids, and changes no other row |
| JobTable.CountsPartition | internal/queue/sqlite_store.go:371-394 | the five status counts add up to the size of the table |
| JobTable.TrimSpaceCuts | internal/queue/sqlite_store.go:106-112 | trimming cuts exactly the blanks, tabs, line ends, vertical tabs and form feeds at both ends |
| JobTable.LowerCase | internal/queue/sqlite_store.go:106-112 | lower-casing replaces each capital by the small letter at its place in the alphabet and nothing else |
| Store.SQLiteStore.constructor | internal/queue/sqlite_store.go:24-39 | opening the store keeps the rows already in the file, leases included, and fixes the process-wide worker id |
| Store.SQLiteStore.EnqueueTx | internal/queue/sqlite_store.go:74-127 | succeeds exactly when all messages have a recipient, all ids are new and the commit goes through; all rows or none, and each new row column by column |
| Store.SQLiteStore.SelectBatch | internal/queue/sqlite_store.go:157-185 | the row loop takes the listed rows in order and stops only at their end, at LIMIT, at the count cap, or before a row that would break the byte cap, 500 and five MiB where the caller gives no cap; at least one row |
| JobTable.RereadAll | internal/queue/sqlite_store.go:216-225 | the second SELECT returns exactly the rows the claim updated, each once, in whatever order of equal age |
| Store.SQLiteStore.ReadClaimed | internal/queue/sqlite_store.go:216-263 | for every answer of the second SELECT, the jobs read are exactly the listed rows among the ids that this process holds |
| Store.SQLiteStore.ClaimDispatchBatch | internal/queue/sqlite_store.go:129-268 | for every pair of answers, a claim leases exactly the rows up to that stop, column by column, and returns each of them once; a failed claim changes nothing |
| Store.SQLiteStore.ExecMark | internal/queue/sqlite_store.go:281-296 | the statement loop marks each listed processing row once, whatever the list repeats, or nothing at all |
| Store.SQLiteStore.MarkSent | internal/queue/sqlite_store.go:270-297 | listed processing rows become sent with the bulk id, one more attempt, no lease and no error on file; all others stay |
| Store.SQLiteStore.MarkRetry | internal/queue/sqlite_store.go:299-326 | listed processing rows wait for retry until the given time with one more attempt, no lease, and the error and status on file; all others stay |
| Store.SQLiteStore.MarkDLQ | internal/queue/sqlite_store.go:328-355 | listed processing rows become dead letters with one more attempt, no lease, and the error and status on file; all others stay |
| Store.SQLiteStore.RequeueStaleProcessing | internal/queue/sqlite_store.go:357-369 | every row whose lease began longer ago than the timeout waits for retry, due now, without a lease, with letter, attempts, error and status kept; no other row changes, none has outlived its lease afterwards, and retry gains exactly the rows processing loses |
| Store.SQLiteStore.RequeueDLQIDs | internal/queue/sqlite_store.go:438-457 | every listed dead letter waits for retry, due now, with letter and attempts kept and error and status cleared; no other row changes, and retry gains exactly the dead letters lost |
| Store.SQLiteStore.RetryNow | internal/queue/sqlite_store.go:459-470 | every retry row is due now and otherwise as before, no other row changes, no status changes, and the count is that of the retry rows |
| Store.SQLiteStore.CountByStatus | internal/queue/sqlite_store.go:371-394 | every status is counted, with zero for absent ones, and the counts add up to the table |
| Store.MarkOneMore | internal/queue/sqlite_store.go:291-295 | marking job by job equals marking all at once, since a marked row is no longer processing |
| BatchCut.CutUnique | internal/queue/sqlite_store.go:142-184 | only one cut is both within the caps and not extendable |
| BatchCut.StopsOnce | internal/queue/sqlite_store.go:142-184 | the rule by which a claim stops, in the caller's own numbers, leaves no choice |
| BatchCut.SplitBatches | internal/dispatch/dispatcher.go:158-186 | in the caller's own numbers, 500 and five MiB where there is no cap: the batches concatenate to the input, none is empty or over the count cap, only a single job is over the byte cap, and each ends only where the next job would break a cap |
| BatchCut.SplitIsGreedy | internal/dispatch/dispatcher.go:169-185 | repeatedly cutting the longest fitting prefix gives such a greedy partition |
| BatchCut.GreedyUnique | internal/dispatch/dispatcher.go:158-186 | a list has only one greedy partition, so the description determines the batches |
| BatchCut.OverheadCovers | internal/queue/sqlite_store.go:178-183 | the batch cost is the payload bytes plus 128 per job |
| Dispatch.ClassifyFailure | internal/dispatch/dispatcher.go:331-350 | a failure is permanent exactly for 4xx other than 408, 425 and 429 |
| Dispatch.BackoffGrows | internal/dispatch/dispatcher.go:363-382 | the schedule grows strictly over the first eight attempts and never shrinks |
| Dispatch.BackoffBase | internal/dispatch/dispatcher.go:363-382 | attempt n waits 1, 5, 15, 60, 300, 900, 3600 or 21600 seconds for n from 1 to 8, one second below, six hours above |
| Dispatch.BackoffWindow | internal/dispatch/dispatcher.go:363-385 | the truncated product of entry and jitter is within a fifth of the schedule entry, and between 0.8 s and 7.2 h |
| Dispatch.SplitMembers | internal/dispatch/dispatcher.go:244-252 | the two lists hold exactly the batch's jobs with and without a retry left |
| Dispatch.SplitConcat | internal/dispatch/dispatcher.go:244-252 | both lists keep the batch's order, so the first retry job is the oldest one read with a retry left |
| Dispatch.SplitKeepsAll | internal/dispatch/dispatcher.go:244-252 | together the two lists hold every job exactly as often as the batch |
| JobView.ShapeStep | internal/queue/sqlite_store.go:193-198 | a row is processing iff it has a start time and a worker; no time lies ahead of the clock but a backoff, by at most 7.2 h |
| JobView.DuplicateMark | internal/queue/sqlite_store.go:281-285 | a late mark that closes another worker's lease keeps the duplicate balance |
| JobView.DuplicateStep | internal/dispatch/dispatcher.go:188-288 | acceptances plus orphaned holders never exceed requeues, plus one for sent, plus one for an accepted current lease |
| JobView.BudgetStep | internal/dispatch/dispatcher.go:244-273 | attempts plus holders that would still decide to retry stay within the cap, plus replays |
| JobView.EvidenceStep | internal/dispatch/dispatcher.go:218-287 | the bulk id of a sent row and every HTTP status on file come from calls that carried the job; dlq needs a permanent status or a spent budget |
| JobView.CallStep | internal/queue/sqlite_store.go:310-314 | every attempt counted was paid by an API call that carried the job |
| JobView.ExclusiveStep | internal/queue/sqlite_store.go:357-369 | a lone holder that owns the lease stays lone as long as no requeue takes a held job |
| JobView.LoyalStep | internal/queue/sqlite_store.go:357-369 | holders stay owners, or the only worker there is after a refusal, as long as no requeue takes the job from another kind of holder |
| JobView.AckStep | internal/dispatch/dispatcher.go:218-229 | with such holders, acceptances are bounded by lost acknowledgements plus one |
| JobView.AckFloorStep | internal/dispatch/dispatcher.go:218-229 | lost acknowledgements, and those still in a worker's hands, never exceed acceptances |
| JobView.QuietStep | internal/dispatch/dispatcher.go:246-252 | a job never requeued has a lone holder with an exact snapshot, and below the limit while unfinished if never replayed |
| Simulation.Simulates | internal/dispatch/dispatcher.go:95-288 | every protocol step acts on every job as one enabled step of the one-job machine |
| Simulation.RetryOrSpent | internal/dispatch/dispatcher.go:253-273 | after a retry-class refusal a job is in exactly one of the two marks |
| Invariant.ClaimedOk | internal/queue/sqlite_store.go:158-263 | a claimed batch consists of distinct rows with their stored letters, within both caps, in whatever order the second SELECT lists them |
| Invariant.SameBytes | internal/queue/sqlite_store.go:158-225 | the byte count of a batch does not depend on the order in which it is read back |
| Invariant.InvRun | internal/dispatch/dispatcher.go:95-288 | the whole invariant is kept along every run |
| Invariant.Reachable | internal/dispatch/dispatcher.go:57-77 | it holds in every state reachable from an empty queue |
| Delivery.DuplicateBound | internal/queue/sqlite_store.go:270-369 | under every interleaving, acceptances of a job are at most one more than its stale requeues |
| Delivery.RetryBudget | internal/dispatch/dispatcher.go:244-273 | attempts stay within limit + workers - 2 while unfinished, one more when finished, plus one per replay |
| Delivery.AttemptsAreCalls | internal/queue/sqlite_store.go:281-285 | attempts never exceed the API calls that carried the job |
| Delivery.AttemptsAreMarks | internal/queue/sqlite_store.go:281-355 | over any run the attempt counter grows by exactly the number of marks that found the row processing |
| Delivery.LeasesCoherent | internal/queue/sqlite_store.go:357-364 | lease columns are set iff processing, every lease becomes stale once the timeout has passed, no retry lies more than 7.2 h ahead |
| Delivery.StatusEvidence | internal/dispatch/dispatcher.go:218-287 | sent means an accepted call, with the bulk id on file, carried the stored payload; a status on file is that of a failed call carrying the job; dlq means that status is permanent or the retry limit is spent |
| Delivery.NothingLost | internal/queue/sqlite_store.go:96-126 | rows stay with their letters, attempts never fall, sent rows never change, the table holds exactly the jobs ever enqueued |
| Delivery.EnqueuedForever | internal/queue/sqlite_store.go:74-127 | returned ids name their messages for the rest of every run |
| Delivery.EverySendWithinLimits | internal/config/config.go:155-175 | every call carries 1 to 500 distinct jobs within all count caps, and unless a single job its JSON body fits the byte cap |
| Leases.LostAckNeeded | internal/dispatch/dispatcher.go:218-229 | as long as no stale requeue takes the job from a live holder, acceptances are at most one more than lost acknowledgements |
| Leases.RequeueUnsafe | internal/queue/sqlite_store.go:281-285 | in every reachable state, a stale requeue that takes the job from a live holder has a continuation, without further requeue or any crash, with two acceptances more than lost acknowledgements |
| Leases.RequeueSafeIff | internal/queue/sqlite_store.go:357-369 | after leases respected so far, a stale requeue keeps that bound in all continuations that respect the lease iff it does not take the job from a live holder |
| Leases.ReachClaim | internal/queue/sqlite_store.go:158-198 | a free worker can come to claim any eligible job, whatever is queued before it |
| Leases.ExclusiveDelivery | internal/dispatch/dispatcher.go:108-152 | as long as no stale requeue takes a held job, live batches are disjoint with matching leases, and a second acceptance needs a crash or failed mark after the first |
| Leases.RequeueApartIff | internal/queue/sqlite_store.go:357-364 | a stale requeue keeps live batches disjoint with matching leases iff it takes no held job |
| Leases.TimelyDelivery | internal/dispatch/dispatcher.go:108-152 | if every worker marks or dies before its lease runs out, both follow |
| Drain.EligibleOrderExists | internal/queue/sqlite_store.go:158-165 | the claim's query has an answer for every table and time |
| Drain.Round | internal/dispatch/dispatcher.go:125-154 | whatever both queries answer, a claim with an eligible job takes at least one, and a successful round sends exactly the jobs taken |
| Drain.WorkBound | internal/queue/sqlite_store.go:142-355 | in every run of accepted calls and committed marks, retry and dead-letter marks of workers refused before included, nonempty claims are at most the jobs waiting or about to be put back, and steps at most three for each plus the open turns |
| Drain.StuckIsDrained | internal/dispatch/dispatcher.go:125-154 | such a run has nothing left to do, now or after a backoff, only when every job is finished: sent, or a dead letter of a worker refused with it before |
| Drain.MakeReady | internal/queue/sqlite_store.go:357-369 | after a lease and the longest backoff a stale requeue leaves every unfinished job claimable |
| Drain.DrainFromAnywhere | internal/dispatch/dispatcher.go:95-288 | from every reachable state, wherever its workers are caught, after a lease, the longest backoff and a stale requeue: every interleaving of accepted calls and committed marks with every answer of the database keeps to that bound, ends with every job finished when nothing is left to do, and can always get there |
| Fairness.ClaimsLeftStep | internal/dispatch/dispatcher.go:246-252 | for a job never requeued nor replayed, each claim uses up one of its remaining claims and nothing gives one back |
| Fairness.OvertakerPays | internal/queue/sqlite_store.go:158-184 | a claim that passes over an eligible job spends a claim of another job not younger than it |
| Fairness.BoundedOvertaking | internal/queue/sqlite_store.go:158-184 | without requeue or replay, claims passing over an eligible job are at most the claims left to the other jobs not younger than it |
| Overtaking.BoundedOvertakingExact | internal/queue/sqlite_store.go:158-184 | where claims take one job at a time, every such state without a running lease has a continuation that reaches this bound |
| Overtaking.LongestWait | internal/queue/sqlite_store.go:158-184 | the last of n + 1 jobs enqueued together can be passed over n times the retry limit |
| Fairness.ClaimsSettled | internal/queue/sqlite_store.go:142-369 | over any run a job's claims equal the attempts it gained plus its stale requeues plus the lease running at the end, less the one running at the start |
| Fairness.OvertakingPaid | internal/queue/sqlite_store.go:158-184 | over any run, each claim passing over an eligible job is matched by such a claim of another job not younger than it |
| Fairness.OvertakingBound | internal/queue/sqlite_store.go:158-184 | in every reachable state and every continuation, claims passing over an eligible job are at most the attempt cap plus one, plus replays and requeues, summed over the other jobs not younger than it |
| Fairness.WaitingRun | internal/queue/sqlite_store.go:310-314 | a row waiting for retry is touched by no late mark, requeue or replay |
| Fairness.RetryDue | internal/dispatch/dispatcher.go:253-257 | all jobs of one retry mark become due together, within a fifth of the schedule entry for the first of them, with the worker's error and status on file |
| Fairness.ClaimWaits | internal/queue/sqlite_store.go:158-165 | a waiting job that is left alone is claimed no earlier than its due time |
| Fairness.BackoffObserved | internal/dispatch/dispatcher.go:254-255 | unless retry-now steps in, the next claim comes at least 0.8 s after the retry decision |
| Exactness.DuplicateBoundExact | internal/queue/sqlite_store.go:281-285 | for every n some run accepts a job n + 1 times after n stale requeues |
| Exactness.LateMarkDuplicates | internal/queue/sqlite_store.go:281-285 | for every configuration and n some run in which no acknowledgement is lost accepts a job n + 1 times after n stale requeues |
| Exactness.RetryBudgetExact | internal/dispatch/dispatcher.go:244-273 | for every configuration with a retry to give, some run without replay reaches the attempt cap on a job waiting for retry |
| Exactness.DrainBoundExact | internal/queue/sqlite_store.go:310-314 | for every configuration with a retry to give some such run takes exactly as many claims as that bound, one job being claimed once per worker |
| Exactness.FinishedBudgetExact | internal/dispatch/dispatcher.go:218-229 | and some run sends such a job with exactly one attempt more |
| Exactness.ReplayBudgetExact | internal/queue/sqlite_store.go:438-457 | for every configuration and number of replays some run leaves an unfinished job at the cap plus one per replay |
| Exactness.BelowLimitIff | internal/dispatch/dispatcher.go:247-251 | unfinished jobs stay below the limit in all runs without replay iff there is one worker or the limit is 1 |
| Exactness.HoldersCanOverlap | internal/queue/sqlite_store.go:357-364 | with two workers, some run has both holding the same job |
| Worker.PartitionRefused | internal/dispatch/dispatcher.go:244-252 | the loop splits a refused batch, in order, into the jobs with attempts plus one below the limit and the others, losing none |
| Worker.ProcessBatch | internal/dispatch/dispatcher.go:188-288 | the row of every job after processBatch, column by column, for every answer and fate of its marks: sent, waiting for the backoff of the first job with a retry left, or a dead letter; and no error exactly when every mark of the turn commits |
| Worker.TurnIsRun | internal/dispatch/dispatcher.go:188-288 | an undisturbed processBatch is a run of protocol steps that ends with the worker idle |
| Worker.NextAnswer | internal/queue/sqlite_store.go:158-198 | after a claim the rest of the listing is a valid answer of the next query, with the rows unchanged |
| Worker.ClaimsRefineSplit | internal/queue/sqlite_store.go:135-184 | repeated claims take exactly the batches of splitBatches with the smaller of LIMIT and count cap |
| Admission.TokensBalance | internal/smtpserver/server.go:139-181 | tokens equal the counted connections plus acquires in progress minus releases in progress, and each address count is exact |
| Admission.CapsHold | internal/smtpserver/server.go:139-167 | live sessions never exceed the global cap nor the cap of their address |
| Admission.NeverBlocks | internal/smtpserver/server.go:155-181 | the receive under the mutex never blocks, release always finds a token and a counted address |
| Admission.AdmitsIff | internal/smtpserver/server.go:139-167 | in every reachable state a connection gets a token iff one is free, and is then admitted iff the rate limiter allows it and its address is below the cap |
| Admission.ReleaseUndoesAcquire | internal/smtpserver/server.go:169-181 | an undisturbed release restores the counters the acquire changed |
| Admission.Backend.constructor | internal/smtpserver/server.go:101-117 | a new backend has no tokens out and no address counted |
| Admission.Backend.Acquire | internal/smtpserver/server.go:139-167 | succeeds iff a token is free, the rate limiter allows it and the address is below its cap; then one token and one address count more, otherwise everything as before |
| Admission.Backend.Release | internal/smtpserver/server.go:169-181 | one token back and one address count less, the entry dropped with the last |
| Session.DomainAfterLastAt | internal/smtpserver/server.go:421-427 | the sender domain is the trimmed lower-case text after the last at-sign, empty without one |
| Session.AlwaysLawful | internal/smtpserver/server.go:224-315 | after any commands, a sender on file was authenticated, allowed and under TLS if required, and recipients imply a sender |
| Session.RecipientsSinceMail | internal/smtpserver/server.go:277-315 | after a successful MAIL the envelope is that sender and exactly the parsable recipients named since, in order |
| Session.ResetAbandons | internal/smtpserver/server.go:282-411 | after RSET, until a MAIL passes again, there is no sender or recipient, RCPT and DATA are refused with 503, and TLS and authentication are not lost |
| Session.CommitQueues | internal/queue/sqlite_store.go:96-126 | the enqueue of one message per recipient yields one queued row per recipient, in order, with its payload |
| Session.TransactionQueues | internal/smtpserver/server.go:224-406 | after a passing MAIL and commands that start no other transaction, an accepted DATA commits one row per parsable RCPT since, in order, from that sender, and no other row |
| Session.SmtpSession.constructor | internal/smtpserver/server.go:131-136 | a session starts unauthenticated with an empty envelope |
| Session.SmtpSession.Authenticate | internal/smtpserver/server.go:205-221 | only the configured credentials authenticate, and failure changes nothing |
| Session.SmtpSession.Mail | internal/smtpserver/server.go:224-280 | passes iff TLS, authentication, address and domain are right; 530 for the first two, 550 for the others; a new envelope only on success |
| Session.SmtpSession.Rcpt | internal/smtpserver/server.go:282-315 | authentication is asked for first, then 503 without a sender, then 550 for an address that does not parse; one more recipient only on success |
| Session.SmtpSession.Data | internal/smtpserver/server.go:317-406 | 503, 451, 552, 554 and 451 for the checks in order; success iff every check passes and the commit goes through; then exactly one queued row per recipient, in order; otherwise no row |
| Session.SmtpSession.Reset | internal/smtpserver/server.go:408-411 | clears sender and recipients, keeps authentication |
| Session.SmtpSession.Logout | internal/smtpserver/server.go:413-419 | releases the connection once, however often it is called |
| Mime.ParseContent | internal/mimeparse/transformer.go:98-173 | the recursive loop computes the fold of the part tree, first error included |
| Mime.ParsesIffSound | internal/mimeparse/transformer.go:98-147 | parsing fails exactly when some node fails to decode, lacks its boundary or breaks off |
| Mime.FirstFault | internal/mimeparse/transformer.go:98-147 | the error is that of the first fault: the node's own decoding, its boundary, its parts in order, its reader |
| Mime.LeafFolds | internal/mimeparse/transformer.go:149-172 | a part with a filename or an attachment disposition is an attachment; else text/plain gives its trimmed body as text, text/html as HTML, any other type nothing |
| Mime.MultipartGrows | internal/mimeparse/transformer.go:113-191 | each further part adds its text and HTML on a new line unless empty or equal to what is there, and its attachments at the end |
| Mime.AttachmentsFlatten | internal/mimeparse/transformer.go:139-154 | the attachments are, at any nesting and in order, the files of the tree with their bytes, names, dispositions and content ids, attachment.bin and attachment where name and disposition are missing |
| Mime.MergeFaithful | internal/mimeparse/transformer.go:175-191 | merging with duplicate suppression loses no body |
| Mime.TextPreserved | internal/mimeparse/transformer.go:117-191 | every nonblank inline text/plain body, trimmed, occurs in the text, which is some of them in order joined by newlines, within the length of all of them; the same for text/html and the HTML |
| Mime.PruneKeepsFold | internal/mimeparse/transformer.go:98-172 | deleting every lost leaf at any depth changes neither the folded content nor the error |
| Mime.LeafLostIff | internal/mimeparse/transformer.go:149-172 | a leaf can be deleted from every message without effect iff it is readable, no attachment, and blank or not plain or HTML text |
| Mime.SelectFrom | internal/mimeparse/transformer.go:224-240 | the header From, name and all, iff its address is the envelope sender's up to letter case, otherwise the envelope sender |
| Mime.Transform | internal/mimeparse/transformer.go:26-85 | succeeds exactly when all parses do, with one message per recipient, in order, each with the selected From, that recipient, the subject, and the folded text, HTML and attachments |

## Left out

- SQLite, its pragmas, SQL text and stored time formats: transactions are atomic and times are integers.
- HTTP, JSON encoding and decoding, URL rewriting: an API call is an outcome; a stored payload is a string of known length and its decoding succeeds.
- The rate limiters, go-smtp, go-sasl and the mail, mime, multipart, quoted-printable and base64 libraries: their results are parameters; an attachment keeps its decoded bytes instead of their base64 form.
- Waiting for the request limiter, idle tickers and heartbeats of the worker loop: they only delay steps.
- ClaimBatch, ListDLQ, GetDLQByIDs, DLQ export and re-reading, trimming of replayed ids: not used by the dispatcher, or file input and output.
- Reply-To, References, In-Reply-To and custom headers of the outgoing message: copied unchanged to every recipient.
- Environment parsing, plan tables, logging, metrics, the HTTP operations server and the command line: only the validated bounds are used.
- Trimming and lower-casing beyond ASCII; floating-point rounding of the jitter product before truncation; integer overflow of byte sums.
- How text and HTML vary with nesting: duplicates are compared with the text accumulated at each level; what every nesting preserves is stated, the exact text per nesting is only the fold itself.
- Fairness.BoundedOvertaking: stated for runs without stale requeue or replay, where the bound is by the claims still left; for all runs Fairness.OvertakingBound counts each requeue and replay of the other jobs as one more claim.
- Session.SmtpSession.Data: the caller supplies one drawn id per recipient; the size limit of the reader is represented by the number of bytes it delivered.
