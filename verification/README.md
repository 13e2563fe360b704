# CineFund: a verified model

A Dafny model of the parts of CineFund whose correctness spans several tables, processes or components,
with proofs of what those parts promise. `dafny verify dfyconfig.toml` checks everything.

**Pledges, captures and the ledger.** `PledgeModel` (statuses, rows), `PledgeQueries` (each SQL statement as a
function of the tables), `PledgeService` (the service's operations and whole runs of them) form the specification.
`PledgeDatabase` and `PledgeHandlers` are the imperative form: a `Database` whose statements rewrite rows in place,
a transaction that commits or restores, and a `Service` whose methods run the statements in the source's order; each is
proved equal to the specification. `PledgeInvariant` links five tables; `LedgerProofs`, `DomainProofs` and
`CaptureProofs` show a capture keeps it, `PledgeRuns` draws the conclusions for every run, `PledgeHistory` treats one
pledge's own deliveries (finality, exactly-once, confluence), `PledgeFate` one pledge amid any traffic (what a step does to
it, told by guards; the transition table; the first capture decides; how pledges come about), `PledgeBooks` what captures
book, account by account, over whole runs, `PledgeRequests` what each request does in the words of its own fields,
`PledgeWitness` reaches the exceptional states from the empty database, and `WebhookDedup` puts Redis in front.

**Transcode jobs.** `MediaTables` and `JobRepository` are the statements and their in-place form; `Fencing` is a cluster
of any number of workers claiming, heartbeating, losing and closing jobs, one call at a time; `Leases` says how long a
worker keeps its job and what each closing write leaves; `TranscodeWorker` is the end of a worker's job in place.

**Playlists and playback.** `Text` (a line scanner), `Paths` (path joining, decimal numbers), `Ladder`, `Playlists`
(what is printed and rewritten on the worker's side), `Playback` (what the API serves), `Publication` (one run's uploads),
`Encodes` (what encodes of an asset may leave, and under which keys), `Atomicity` (any number of runs interleaved),
`AtomicityExact` (exactly when a readable master leads to nothing missing) and `AtomicPlayback` (the playback closure).

**Outbox, migrations, keys.** `Outbox` and `OutboxDispatcher`; `AccountMerge` (migration 0017); `Migrate`; `KeyCache`.

`Results`, `Sums` and `Commas` hold shared vocabulary.

## How to read the model

- A UUID or identity column is the row's position. Timestamps appear only where code compares them.
- A transaction is one atomic step: the body runs, then it commits, or the tables are as before. A fault flag stands for
  an error of any statement or of the commit; a call either commits or errors, never both.
- 64-bit sums of amounts wrap; columns refuse what is out of their range. Other integers are unbounded.
- Each `lemma` over a run quantifies over every list of steps; a step that cannot happen changes nothing.
- Proofs by induction recurse explicitly; automatic induction is off for every lemma.
- Of two up migration files with one version the loader keeps the second one's script under the first one's name
  (`cmd/migrate/main.go:105-117`, `Migrate.SecondUpFileWins`).

## Where code and comments differ

- `internal/pledge/service.go:338-343` says a capture is never refused for a business reason. It can be: a payment
  already on another pledge, an increment that overflows a column, or a held capture that is not positive is an error that
  rolls back. `PledgeRuns.CaptureRefusedExactly` gives the exact condition, and `PledgeWitness` a run to each case.
- `internal/pledge/service.go:410-411` says a held pledge takes two legal moves in one. `PledgeFate.StatusFollowsTable`
  proves that a step leaves the transition table exactly then.
- `internal/pledge/service.go:278` says the Redis key is released on failure so that retries are not swallowed. The release
  is a call that can fail, on the same request context, and a process can die before it. `WebhookDedup.StrandedExactly`
  says exactly when a retry is turned away with nothing recorded or in flight; three lemmas beside it show the ways.
- `internal/outbox/dispatcher.go:90` says two dispatchers never grab the same row. The claim's locks end with the
  statement, so they can: `Outbox.ClaimOverlapsExactly` says exactly when, `Outbox.TwoDispatchersSendTwice` shows it, and
  `OutboxDispatcher.AnotherCopyExactly` says exactly when a row can still be sent again.
- `internal/media/transcode/ladder.go:84` gives the codec string as avc1.4d4028; the code, which the model follows, prints
  avc1.4d0028.
- `internal/media/transcode/master.go:14-18` promises that a readable master leads to stored files only; 46-49 says that
  a re-run overwrites identical content. The promise holds over every interleaving exactly when each line of an encode's
  index names a file of every other encode or one that goes up before that index: `AtomicityExact.PublicationExactly`.
  Encodes with the same file names meet this, and so would uploading the index last.
- `internal/media/upload.go:178-184` flips the asset to UPLOADED whatever its status. Over a whole run, assets and jobs
  agree exactly when no upload completes after its job is over: `Fencing.AssetsShowUnlessLate`.
- `cmd/api/firebase_verify.go:30-31` says a minimum refresh interval keeps a stream of forged tokens from becoming a stream
  of requests. It does exactly as long as fetches succeed: `KeyCache.NextFetch`.
- `cmd/api/firebase_verify.go:251` multiplies seconds into 64-bit nanoseconds, so a longer max-age can give a shorter time:
  `KeyCache.MaxAgeHonoured` says for which ages the header is honoured.

## Model

| member | source | states |
|---|---|---|
| PledgeRuns.CampaignTotals | internal/pledge/service.go:347-445 | Over any interleaving from an empty database, a campaign's raised amount is the sum of its CAPTURED and SETTLED pledges and the credit balance of its escrow account, and its backer count is the number of distinct backers with such a pledge |
| PledgeRuns.TierNeverOversold | internal/pledge/service.go:358-382 | A tier's claimed count is the number of its counted pledges and never exceeds its limit, however many open pledges race for the last slot |
| PledgeRuns.LedgerIdentities | internal/pledge/ledger.go:89-130 | All accounts sum to zero, every transaction balances, platform escrow is captures less fees, each backer is owed what the refund events ask for, and a PLEDGE_CAPTURE transaction exists exactly for captured or held pledges |
| PledgeModel.WrappingAddWraps | internal/pledge/service.go:385 | The 64-bit sum differs from the true one by a multiple of 2^64, and equals it if and only if the true sum is in range |
| PledgeBooks.StepBooksExactly | internal/pledge/ledger.go:89-130 | On every account, a step moves the balance by exactly the amounts of the capture it applies, told by the capture's own amount, fee and tax; any other step moves nothing |
| PledgeBooks.BooksAddUp | internal/pledge/ledger.go:89-130 | Over every run, each account's balance is the sum of what the captures applied along it book there |
| PledgeBooks.FeesAddUp | internal/pledge/service.go:385-425 | From the empty database the fee account holds the fees and taxes of the captures applied, counted and held, added up; sums out of range book what their 64-bit value says |
| PledgeRuns.CaptureRefusedExactly | internal/pledge/service.go:335-403 | In a reachable state a capture errors if and only if its payment is on another pledge, a counted increment overflows, or a held amount is not positive; the illegal-transition error, the oversold check and the ledger's early return do not occur |
| PledgeRuns.TriggerNeverFires | migrations/0011_ledger.up.sql:53-74 | In a reachable state no transaction of any request is refused by the deferred balance trigger |
| PledgeRuns.CreateChecked | internal/pledge/service.go:75-119 | A pledge is inserted if and only if the campaign is live and at least a minute before its deadline, the backer is not its creator, the tier is the campaign's, met by the amount and not sold out, the amount is positive, and no other pledge still waits for its order |
| PledgeFate.PledgesWereChecked | internal/pledge/service.go:75-119 | Every pledge in every reachable state was inserted by a step at which those checks held, and its campaign, backer, tier and amount are still the ones asked for |
| PledgeRuns.StepKeepsInv | internal/pledge/service.go:73-486 | Every operation, faulted or not, keeps the invariant linking pledges, campaigns, tiers, ledger and outbox |
| PledgeRuns.RunKeepsInv | internal/pledge/service.go:73-486 | The invariant holds after every run |
| CaptureProofs.CaptureKeepsInv | internal/pledge/service.go:347-445 | Any applied capture, counted or held, keeps the whole invariant |
| CaptureProofs.CountedEffectHolds | internal/pledge/service.go:372-402 | All that a counted capture changes: its pledge row, its campaign's total and backer count, its tier's count, the balances booked for amount and fee plus tax (in the capture's own numbers: PledgeBooks.StepBooksExactly), one event; and nothing else |
| CaptureProofs.HeldEffectHolds | internal/pledge/service.go:412-445 | A held capture changes its pledge row, moves the paid amount to the backer's refund account, books the capture's fee and tax, and asks for the refund; campaign and tier stay |
| LedgerProofs.RecordCaptureEffect | internal/pledge/ledger.go:89-130 | Booking a capture moves escrow by amount less fee, the fee account by the fee and the credited account by the amount, no other balance, and keeps every transaction balanced and every account unique |
| DomainProofs.PriorMeansBacker | internal/pledge/repo.go:124-137 | The EXISTS subquery is true exactly when the backer is already among the campaign's counted backers |
| DomainProofs.RaisedAfterCount | internal/pledge/repo.go:121-137 | Adding the amount and 0 or 1 backers restores raised amount and backer count to the sum and the set's cardinality |
| PledgeHistory.BookedIsFinal | internal/pledge/service.go:347-465 | After the first applied capture nothing in these paths changes the pledge's status, payment or amount |
| PledgeHistory.EventCommitsAtMostOnce | internal/pledge/service.go:252-265 | Over any run a provider event commits exactly once if it becomes recorded, else never |
| PledgeHistory.Confluence | internal/pledge/service.go:164-465 | Any order and multiplicity of captured, failed and confirm deliveries, faults included, of which one pays, ends CAPTURED with the amount counted once and one pledge.captured event |
| PledgeHistory.OrderDoesNotMatter | internal/pledge/service.go:164-465 | Two such delivery lists lead to the same statuses, totals, tier counts and events to publish |
| PledgeRequests.ResolvesExactly | internal/pledge/service.go:470-486 | An event leads to a pledge if and only if its row carries the event's order, or no row does and the event's note names the row; and is refused if and only if there is no such pledge |
| PledgeRequests.CapturedWebhook | internal/pledge/service.go:252-268 | A fresh captured event gives the pledge it belongs to, by order or by note, its captured or held row when it is still open and the capture can be recorded, and changes no other row |
| PledgeRequests.FailedWebhook | internal/pledge/service.go:447-465 | A fresh failed event makes the pledge it belongs to FAILED if it was CREATED or AUTHORIZED, records the event with the noted pledge, and does nothing else |
| PledgeRequests.OtherWebhook | internal/pledge/service.go:268-275 | A fresh event of any other kind is recorded and changes nothing else, whatever it names |
| PledgeRequests.RefusedWebhook | internal/pledge/service.go:252-275 | An event that is repeated, has no id or names a missing pledge, or that should belong to a pledge and belongs to none, is refused and leaves no trace |
| PledgeRequests.RepeatedWebhook | internal/pledge/service.go:252-265 | An event on record is answered as a duplicate, whatever else is wrong with it, and changes nothing |
| PledgeRequests.FoundIsTaken | internal/pledge/service.go:297-315 | What is found among the payments carries id, amount, fee and tax of one captured payment: the first of the preferred id, else the first captured; nothing is found only when none is captured |
| PledgeRequests.ConfirmTakes | internal/pledge/service.go:164-212 | A confirm by the pledge's backer with its order gives the pledge the captured or held row of the payment taken, told by that payment's fields |
| PledgeRequests.OtherConfirms | internal/pledge/service.go:164-212 | Any other confirm, unsigned, of someone else, with another order, without a captured payment, changes nothing at all |
| PledgeRequests.CreateInserts | internal/pledge/service.go:112-119 | One open row with the terms asked for, no order, payment or reason, is added exactly when everything checked holds; else nothing changes |
| PledgeRequests.CreateErrorsMean | internal/pledge/service.go:75-119 | Each error of a refused creation says what it names |
| PledgeRequests.ConfirmErrorsMean | internal/pledge/service.go:164-212 | Each error of a refused confirm says what it names |
| PledgeRequests.AttachExactly | internal/pledge/repo.go:36-40 | The order id is attached if and only if no other row has it, and nothing else changes |
| PledgeRequests.CommitsExactly | internal/pledge/repo.go:24-34 | A transaction keeps its body's tables if and only if nothing failed and every ledger transaction's entries cancel out |
| PledgeRequests.RecordingRepeats | internal/pledge/ledger.go:89-130 | In any tables, a capture on the books is not booked again: recording is idempotent |
| PledgeRequests.ClaimedWithinLimit | internal/pledge/repo.go:139-143 | In any tables, a tier's claimed count goes up by one if and only if its limit and the column allow it |
| PledgeFate.StepOutcome | internal/pledge/service.go:164-486 | What any step does to a pledge, by guards alone: the captured or held row exactly when it brings a recordable capture, else at most an attached order or a failed attempt |
| PledgeFate.FirstCaptureDecides | internal/pledge/service.go:347-465 | For every run with any other traffic, by order or noted id, the first recordable capture decides CAPTURED or REFUND_PENDING for good, and without one the pledge has no capture |
| PledgeFate.ConfluenceAmidTraffic | internal/pledge/service.go:164-486 | Amid any traffic, as long as the tier keeps room and captures carry the amount, the pledge ends CAPTURED, with one event and its amount in the total, exactly when some step brought a capture |
| PledgeFate.StatusFollowsTable | internal/pledge/model.go:31-62 | A step leaves the transition table if and only if it holds a recordable capture, of another amount or for a full tier, of a FAILED or AUTHORIZED pledge, and then makes two of its moves in one |
| PledgeWitness.FailedIsHeld | internal/pledge/service.go:355-357 | That exception happens on a run from the empty database |
| PledgeWitness.NegativeHeldIsRefused | internal/pledge/service.go:412-427 | On a run from the empty database, a capture to be held is refused when it is not positive |
| PledgeWitness.TakenPaymentIsRefused | internal/pledge/repo.go:98-114 | On such a run, a payment already on one pledge is refused for another |
| PledgeWitness.OverflowIsRefused | internal/pledge/repo.go:124-137 | On such a run, a capture that takes its campaign's total out of range is refused |
| PledgeFate.TerminalHasNoWayOut | internal/pledge/model.go:25-65 | The terminal statuses are exactly those the table gives no other status to move to |
| PledgeModel.TableEdges | internal/pledge/model.go:31-54 | The moves the table allows, one by one |
| PledgeModel.BookedHasNoCaptureAhead | internal/pledge/model.go:31-62 | The statuses with a capture are exactly those from which the table allows no capture; no status is counted and held; a counted pledge's money only ever moves on to settlement or refund |
| PledgeHandlers.ChooseCapture | internal/pledge/service.go:297-315 | The loop takes the first captured payment with the preferred id, else the first captured one, with that payment's own id, amount, fee and tax; else none |
| PledgeHandlers.Service.RecordCapture | internal/pledge/ledger.go:89-130 | The statements in order do what the specification says, early return included |
| PledgeHandlers.Service.HoldForRefund | internal/pledge/service.go:412-445 | The same for a held capture; the struct handed back says REFUND_PENDING |
| PledgeHandlers.Service.ApplyCapture | internal/pledge/service.go:347-403 | The same for every branch of a capture |
| PledgeHandlers.Service.ApplyFailure | internal/pledge/service.go:453-464 | A failure changes the status where the table allows it and is ignored elsewhere |
| PledgeHandlers.Service.CreatePledge | internal/pledge/service.go:73-142 | One transaction, then the order; the pledge stays without an order when the provider is unreachable, and, with success reported, when attaching fails for any reason |
| PledgeHandlers.Service.ConfirmPayment | internal/pledge/service.go:164-212 | Signature, provider lookup, then one transaction; the status reported is the row's |
| PledgeHandlers.Service.ResolvePledge | internal/pledge/service.go:470-486 | The pledge the event belongs to: its row carries the order, or none does and the note names it; an error exactly when there is none, by what is missing |
| PledgeHandlers.Service.HandleWebhook | internal/pledge/service.go:236-286 | The key is asked first, the transaction decides, DEL is called on every error but a duplicate; tables, error and the keys left behind, whether or not SETNX and DEL take effect |
| PledgeDatabase.Database.Finish | internal/pledge/repo.go:24-34 | A transaction ends with its body's tables, or on any error or unbalanced entry with the tables it began with |
| PledgeDatabase.Database.IncrementCampaignRaised | internal/pledge/repo.go:124-137 | The statement's effect on the campaign row, or the range error |
| PledgeDatabase.Database.IncrementTierClaimed | internal/pledge/repo.go:139-143 | The statement's effect on the tier row, or the range or oversold error |
| PledgeDatabase.Database.MarkPledgeCaptured | internal/pledge/repo.go:98-103 | Status and payment are written together unless another pledge has the payment |
| PledgeDatabase.Database.MarkPledgeRefundPending | internal/pledge/repo.go:108-114 | The same for a held capture, with its reason |
| PledgeDatabase.Database.AttachOrder | internal/pledge/repo.go:36-40 | The order id is written unless another pledge has it |
| PledgeDatabase.Database.InsertPledge | internal/pledge/repo.go:47-55 | A new row with the empty order id, which the unique constraint allows at most one row to have |
| PledgeDatabase.Database.InsertPaymentEvent | internal/pledge/repo.go:145-153 | A second row with an event id is refused |
| PledgeDatabase.Database.GetOrCreateAccount | internal/pledge/repo.go:187-195 | The upsert finds the account or adds it, absent owners counting as equal |
| WebhookDedup.RedisOnlyDrops | internal/pledge/service.go:246-252 | For any answers of Redis, the tables evolve as without Redis on the deliveries it let through |
| WebhookDedup.ReleasedExactly | internal/pledge/service.go:246-286 | A key said to be taken turns the delivery away as a duplicate, an unreachable Redis does not; the key is given back if and only if the delivery was let through and failed, other than as a repeat |
| WebhookDedup.CommitsOnceBehindRedis | internal/pledge/service.go:236-286 | Each provider event commits at most once behind any Redis |
| WebhookDedup.StrandedExactly | internal/pledge/service.go:246-286 | With an honest Redis whose calls may fail or be given up on, over overlapping deliveries, expiries, flushes and crashes, a retry would be turned away with nothing recorded or in flight if and only if the last delivery in flight crashed, or failed without its DEL taking effect, while the key was held, or a SETNX given up on took effect after all, and nothing freed the key since |
| WebhookDedup.HonestRedisHidesNothing | internal/pledge/service.go:236-286 | So a turned-away event is recorded or in process except exactly then; a failed delivery changes no table, and its key is free afterwards exactly when the DEL takes effect or the key was gone |
| WebhookDedup.CrashStrandsDelivery | internal/pledge/service.go:247-252 | A crash before the commit leaves the key: the retry is turned away though nothing is recorded |
| WebhookDedup.FailedDeleteStrandsDelivery | internal/pledge/service.go:279-283 | So does a failed delivery whose DEL fails too |
| WebhookDedup.LateKeyStrandsDelivery | internal/pledge/service.go:247-249 | So does a SETNX that was given up on and takes effect after its delivery failed |
| Fencing.FencingTheorem | internal/media/repo.go:62-190 | In every reachable state filtering on worker_id equals filtering on (worker_id, attempt); a write comes from the holder of the latest attempt and touches that job only; a stale worker writes nothing |
| Fencing.RetryBound | internal/media/transcode/worker.go:185-191 | At most MaxAttempts - 1 retryable failures take effect on a job; its attempt is its retries and expired claims plus the one under way, so with no expired lease it stays within MaxAttempts |
| Fencing.OneTerminalOutcome | internal/media/repo.go:81-190 | A terminal job has exactly one completed, failed or rejected event, the one of its status; no job has two |
| Fencing.FinishedStays | internal/media/repo.go:20-190 | A terminal job's row never changes again, under any steps |
| Fencing.AssetsShowUnlessLate | internal/media/upload.go:178-184 | After a whole run every finished job's asset shows its outcome if and only if no step of the run completed the upload of an asset whose job was over |
| Fencing.RepeatedEnqueue | internal/media/repo.go:193-201 | An enqueued asset keeps its one job; enqueueing again after any run finds it and changes nothing |
| Leases.HeartbeatLeases | internal/media/repo.go:62-67 | A heartbeat of the row's worker moves the lease's end, and nothing else, to ttl from now: the job is free to claim at time t if and only if now + ttl < t |
| Leases.OtherHeartbeats | internal/media/repo.go:62-67 | A heartbeat of anyone else, or for a row that is not running, changes nothing |
| Leases.ClaimLeases | internal/media/repo.go:20-42 | A claim gives the row to the worker as its next attempt on a lease until now + ttl, with the same if-and-only-if |
| Leases.ClaimProtects | internal/media/repo.go:20-67 | From a claim until its lease ends, whatever the other workers, uploads and enqueues do, the job stays this worker's in this attempt, running |
| Leases.BeatProtects | internal/media/repo.go:62-67 | The same from every heartbeat that finds the worker's row, for its ttl |
| Leases.LeaseRunsOut | internal/media/repo.go:20-42 | An idle worker's claim takes a running job if and only if its lease has run out |
| Leases.FreeExactly | internal/media/repo.go:29-36 | In every reachable state a queued job has neither worker nor lease and is free, a running one has both and is free exactly after its lease, a finished one keeps its worker, has no lease and is never free |
| Leases.SuccessWrites | internal/media/repo.go:81-120 | A success of the job's holder ends the job, makes its asset READY with the call's master key, and tells it with that key; nothing else changes |
| Leases.CloseDecides | internal/media/transcode/worker.go:175-198 | The closing write of the job's holder: cancelled and rejected for good; else back in the queue if and only if attempts are left and no shutdown is under way; else failed for good; with exactly its event, the asset's key untouched |
| Leases.CloseWithoutJob | internal/media/transcode/worker.go:167-173 | A worker that lost its job or saw the loss writes nothing at all |
| Leases.BeatTells | internal/media/transcode/worker.go:239-251 | A beat shows the worker its loss if and only if it reaches the database and finds no running row of the worker's; it then writes nothing |
| Leases.ReadyCarriesItsMaster | internal/media/repo.go:81-120 | Over any run, an asset has a master key if and only if its completed event is in the outbox, the two agree, and a READY asset has one |
| Leases.UploadWrites | internal/media/upload.go:159-193 | A completed upload flips the one asset's status, tells it, and touches neither its key nor any job |
| TranscodeWorker.CloseJob | internal/media/transcode/worker.go:160-198 | The statements after an encode write what the cluster's closing step says, for a stolen, reported, rejected, retryable and final end |
| TranscodeWorker.ReportSuccess | internal/media/transcode/worker.go:379-384 | The encode's last statement, and whether an error is left to close |
| JobRepository.Repo.Claim | internal/media/repo.go:20-60 | Takes the oldest free queued row, else the oldest expired one, none only when no unlocked row is free, and stamps worker, lease and attempt |
| JobRepository.Repo.Heartbeat | internal/media/repo.go:62-78 | Extends the lease of a running row the worker is on; says whether a row matched |
| JobRepository.Repo.Succeed | internal/media/repo.go:81-120 | Job, asset and event together, or nothing when the job was stolen |
| JobRepository.Repo.Fail | internal/media/repo.go:123-154 | Back to the queue when retryable, else job, asset and event together; a retryable miss is no error |
| JobRepository.Repo.Reject | internal/media/repo.go:157-190 | Cancelled job, rejected asset and event together, or nothing when stolen |
| JobRepository.Repo.Enqueue | internal/media/repo.go:193-201 | One row per asset and version; the id returned is that row's |
| Ladder.LadderFor | internal/media/transcode/ladder.go:55-66 | Exactly the rungs that fit the source, tallest first, or the lowest rung alone |
| Ladder.RungNumbers | internal/media/transcode/ladder.go:41-47 | Each rung's name is its even height and "p", its maximum rate 1.07 times and its buffer 1.5 times its video bitrate |
| Ladder.Width | internal/media/transcode/ladder.go:33-39 | The even width closest below the aspect ratio's |
| Ladder.ByPeakIsStableSort | internal/media/transcode/master.go:23-27 | The order is by falling bandwidth, a permutation, and stable |
| Playlists.BuildMasterPlaylist | internal/media/transcode/master.go:19-42 | Prints the header, then tag and reference of every rung by falling bandwidth |
| Playlists.TagReadsBack | internal/media/transcode/master.go:31-36 | Cut at its commas, a rung's tag says maximum rate plus audio as bandwidth, video bitrate plus audio as average, width and height as resolution, and the two codecs, every number read back from its digits |
| Playback.MasterReadsBack | internal/media/transcode/master.go:28-40 | A printed master, scanned again, has the two header lines and then, by falling peak, each rung's tag and below it a reference that splits into the rung's name and its index |
| Text.ScannerCuts | internal/media/transcode/master.go:77-81 | The scanner's lines, told by what a text starts with: up to a newline, less one carriage return; a line of 1048576 characters cannot be scanned |
| Text.ScannerEnds | internal/media/transcode/master.go:77-81 | A last line needs no newline |
| Playlists.FileKeyParts | internal/media/transcode/master.go:51-53 | A file's key is a direct child of its rung's prefix and gives back asset, version, rung and name |
| Playlists.MasterKeyParts | internal/media/transcode/master.go:56-58 | The master's key gives back asset and version |
| Playlists.RewriteVariantPlaylist | internal/media/transcode/master.go:75-109 | The scanner loop computes the line-by-line rewrite, scanner error and presign errors included |
| Playlists.VariantIsLinePreserving | internal/media/transcode/master.go:75-109 | For every input, blank and tag lines stay in place (section 4.1 of RFC 8216), every other line becomes the signature of the rung's prefix or a direct child of it; it fails exactly when a line is too long, a media line has a slash, backslash or two dots in a row, or its key cannot be signed |
| Playlists.SignedKey | internal/media/transcode/master.go:94-98 | The key signed for a safe line is the prefix itself for ".", else its direct child |
| Playback.RewriteMasterRefs | internal/media/playback.go:204-229 | The known-name loop and the scanner loop compute the master's rewrite |
| Playback.FindRungKey | internal/media/playback.go:138-144 | The key of the first recorded rung of the name, "" when there is none |
| Playback.MasterRefusesExactly | internal/media/playback.go:204-229 | For every text: rewriting a master fails if and only if a line is too long or a media line does not split into a recorded, whitelisted rung's name and its index; else blank lines and tags stay, and each reference leads below the variants' route to the same rung |
| Playback.MasterAnswered | internal/media/playback.go:100-119 | A master is answered only for a READY asset with a stored master of at most 1048576 characters, and is that text rewritten |
| Playback.VariantAnswered | internal/media/playback.go:125-167 | A variant is answered only when besides its name is whitelisted and the first rung of that name has a stored playlist within the limit |
| Playback.UnknownVariant | internal/media/playback.go:138-149 | A name that no recorded rung has is not answered |
| Playback.RungNameByCode | internal/media/playback.go:40 | The whitelist, by code point and length |
| Playback.MasterRoundTrip | internal/media/playback.go:200-229 | Every master printed for recorded rungs, read back, rewrites without error into the same lines with each reference replaced by its rung's API path, "variants", the rung's name and its index (AtomicPlayback.ServedMasterLeads reads them off the served text) |
| Playback.ServedPair | internal/media/transcode/master.go:33-40 | Each tag line is followed by its own rung's path (section 4.3.4.2 of RFC 8216), in order of bandwidth |
| Publication.UploadDir | internal/media/transcode/worker.go:394-413 | The store ends with a prefix of the directory's uploads, stopped exactly at the first that fails |
| Publication.UploadRungs | internal/media/transcode/worker.go:341-354 | The same over all rungs; the rungs recorded are the ladder's with their playlist keys |
| Publication.Publish | internal/media/transcode/worker.go:340-384 | For any failures, the store ends with a prefix of rungs, poster, master in this order; success is reported exactly when the whole of it is stored, which is exactly when no upload but the poster's fails |
| Publication.PlanEnds | internal/media/transcode/worker.go:352-376 | The uploads end with the poster under its own name, if there is one, and then the master under its |
| Atomicity.NextKeepsInv | internal/media/transcode/worker.go:340-384 | Every upload, crash or success of any of many runs keeps: a stored master has some encode stored whole, a stored index came with its encode's earlier files, READY assets have a master |
| AtomicityExact.PublicationExactly | internal/media/transcode/master.go:14-18 | Over every interleaving of runs of any permitted encodes, a stored master leads to stored files only, if and only if each line of an encode's index is among every other encode's files or goes up before that index |
| AtomicityExact.MasterLeadsNowhereMissing | internal/media/transcode/master.go:14-18 | One direction by itself: encodes that fit together publish atomically, stale runs included |
| AtomicPlayback.ReadyHasMaster | internal/media/transcode/worker.go:370-383 | A READY asset's row names its rungs and its master, and the master is stored |
| AtomicityExact.OtherNamesBreakPublication | internal/media/transcode/worker.go:394-413 | The other direction: for any number of rungs, a line that fits neither way is, after one whole run and the start of another, listed by the stored index of a readable master while its file is not stored |
| AtomicPlayback.SameNamesFit | internal/media/transcode/master.go:46-49 | Encodes that leave the same file names fit together |
| AtomicPlayback.IndexFirstNeedsNames | internal/media/transcode/worker.go:394-413 | When the index goes up first, as its name sorts, encodes fit if and only if each lists only names all others have |
| AtomicPlayback.IndexLastFits | internal/media/transcode/worker.go:394-413 | Were the index to go up last, any two encodes would fit |
| AtomicPlayback.OtherSegmentsMisfit | internal/media/transcode/worker.go:394-413 | Encodes whose segments have different names do not fit |
| AtomicPlayback.ReadyMasterPlays | internal/media/playback.go:100-119 | After any runs of any encodes the master of every READY asset is served without error |
| AtomicPlayback.ServedMasterLeads | internal/media/playback.go:204-229 | From the served text of any READY asset, after any interleaving of runs: two header lines, two more per rung, and under each rung's tag a reference that splits into "variants", that rung's name and "index.m3u8"; which is served whole there when the encodes fit together |
| AtomicPlayback.EveryRungIsLedTo | internal/media/transcode/master.go:23-37 | Every rung of the asset is among those led to |
| AtomicPlayback.PlaybackExactly | internal/media/playback.go:125-164 | After every interleaving every variant of a READY asset is served, with each tag in place and each signed key a stored object's, if and only if the asset's encodes fit together |
| AtomicPlayback.ReadyVariantPlays | internal/media/playback.go:125-164 | One direction by itself, variant by variant |
| Encodes.LadderFits | internal/media/transcode/ladder.go:41-66 | The ladder of every source satisfies what the theorems above assume of a ladder |
| AtomicityExact.AloneBecomesReady | internal/media/transcode/worker.go:340-384 | A run that nothing interrupts makes its asset READY, for any permitted encode |
| Encodes.DirExists | internal/media/transcode/worker.go:394-413 | Directories as the theorems assume them exist |
| Outbox.NothingIsLost | internal/outbox/dispatcher.go:63-130 | Any dispatchers, faults and crashes: a row marked published is in the log, the log holds rows' records only, and rows, marks and records never go away |
| Outbox.TwoDispatchersSendTwice | internal/outbox/dispatcher.go:90-107 | Two dispatchers can send one row twice |
| Outbox.ClaimOverlapsExactly | internal/outbox/dispatcher.go:90-107 | Whatever rows claims under way have locked, a claim takes a row another dispatcher has in hand if and only if such a row is among the first n unmarked rows no other claim has locked |
| OutboxDispatcher.AnotherCopyExactly | internal/outbox/dispatcher.go:63-130 | From any reachable state some continuation logs another copy of a row if and only if the row is unmarked or some dispatcher has it in hand unsent |
| Outbox.ExactlyOnceWhenCareful | internal/outbox/dispatcher.go:63-88 | A sufficient discipline for exactly once: none claims what another has in hand and every send is marked |
| OutboxDispatcher.Store.Claim | internal/outbox/dispatcher.go:91-122 | The first n unpublished rows, in an order left open |
| OutboxDispatcher.ClaimIsLowest | internal/outbox/dispatcher.go:91-102 | A claim leaves a free row only when it has its n rows, and these have lower ids |
| OutboxDispatcher.Store.MarkPublished | internal/outbox/dispatcher.go:125-130 | Marks the row unless it is marked already |
| OutboxDispatcher.Dispatcher.Tick | internal/outbox/dispatcher.go:63-88 | For any outcomes of its calls, table and log end as handling the claimed rows in order says |
| OutboxDispatcher.TickDoes | internal/outbox/dispatcher.go:63-88 | For any failing calls the log grows by the records of the rows that were sent, in the order claimed, and a row becomes published, at the tick's time, if and only if it was unpublished, claimed, sent and marked |
| OutboxDispatcher.TickIsARun | internal/outbox/dispatcher.go:63-88 | A tick, cut off after any row, is a run of the dispatcher's steps in the machine with many dispatchers |
| OutboxDispatcher.OneDispatcherDrains | internal/outbox/dispatcher.go:44-88 | From any state, one dispatcher without faults or new rows has drained n rows after k ticks if and only if n <= k * batch, each logged exactly once |
| AccountMerge.LedgerTables.Merge | migrations/0017_ledger_account_uniqueness.up.sql:14-37 | The script's end state for any accounts and entries; the new constraint can always be added |
| AccountMerge.ImbalanceKept | migrations/0017_ledger_account_uniqueness.up.sql:14-23 | Every ledger transaction keeps its imbalance |
| AccountMerge.GroupBalanceKept | migrations/0017_ledger_account_uniqueness.up.sql:14-33 | The account a (kind, owner, currency) group keeps ends with the total of the group's old balances |
| AccountMerge.NothingDangles | migrations/0017_ledger_account_uniqueness.up.sql:14-33 | No entry refers to a deleted account, and nothing else of an entry changes |
| AccountMerge.OnePerGroup | migrations/0017_ledger_account_uniqueness.up.sql:25-37 | At most one account per group is left, absent owners counting as equal |
| AccountMerge.KeptIsFirsts | migrations/0017_ledger_account_uniqueness.up.sql:25-33 | The accounts left are exactly the first of each group by creation time and id |
| AccountMerge.OldestIsKept | migrations/0017_ledger_account_uniqueness.up.sql:18-22 | An account is left if and only if no other of its kind, owner and currency was created earlier, nor at the same time with a lower id |
| AccountMerge.GroupsSurvive | migrations/0017_ledger_account_uniqueness.up.sql:25-33 | A group has an account afterwards exactly if it had one before |
| AccountMerge.RunningAgain | migrations/0017_ledger_account_uniqueness.up.sql:10-13 | Stopped after the UPDATE and run again, or run twice, the script ends in the same state |
| Migrate.LoadMigrations | cmd/migrate/main.go:79-129 | Fails exactly when a name does not parse or a version has no up script; else the migrations of the files, in strictly rising order |
| Migrate.MigrationIs | cmd/migrate/main.go:105-117 | A version's scripts are the bodies of its last up and its last down file, empty without one, under the name of its first file |
| Migrate.SecondUpFileWins | cmd/migrate/main.go:105-117 | Two up files of one version load as one migration with the second script |
| Migrate.Connection.InTx | cmd/migrate/main.go:231-241 | Script and row together, or neither |
| Migrate.Connection.MigrateUp | cmd/migrate/main.go:151-180 | Computes up over the list, stopping at the first failure |
| Migrate.Connection.MigrateDown | cmd/migrate/main.go:182-214 | Reverts the latest applied migration, with each error case |
| Migrate.UpToGoesOn | cmd/migrate/main.go:149-180 | From a prefix, up reaches a longer one; it succeeds with the whole list applied, or stops at a migration whose script or transaction failed |
| Migrate.DownGoesBack | cmd/migrate/main.go:182-214 | From a prefix, down succeeds exactly when the last script is there and runs, and takes the prefix back by one |
| Migrate.FreshDatabase | cmd/migrate/main.go:151-241 | Over any run of up and down the applied versions are a prefix of the sorted list, and when downs invert ups the schema is the fold of that prefix's up scripts |
| Migrate.UpTwice | cmd/migrate/main.go:151-180 | A successful up leaves every version applied, and repeating it changes nothing |
| KeyCache.KeyTTL | cmd/api/firebase_verify.go:245-256 | The loop computes the time to live, always within one minute and 24 hours |
| KeyCache.LastMaxAgeDecides | cmd/api/firebase_verify.go:246-255 | Of several directives the last max-age that parses decides |
| KeyCache.AgeAnywhere | cmd/api/firebase_verify.go:246-255 | A max-age counts wherever it stands in the header and whatever white space is around it |
| KeyCache.TypicalHeader | cmd/api/firebase_verify.go:245-256 | For "public, max-age=n, must-revalidate" the time is n seconds, at least one minute and at most 24 hours, for every n whose nanoseconds fit 64 bits |
| KeyCache.NoAgeGivesAnHour | cmd/api/firebase_verify.go:245-256 | A header that names no age gives one hour |
| KeyCache.AtoiOfSigned | cmd/api/firebase_verify.go:249-251 | A number printed with or without a sign is read if and only if it fits 64 bits |
| KeyCache.AtoiRefuses | cmd/api/firebase_verify.go:249-251 | Anything but digits after the sign, and the empty text, is no number |
| KeyCache.SpaceByCode | cmd/api/firebase_verify.go:247 | The white space trimmed around a directive, by code point |
| KeyCache.MaxAgeHonoured | cmd/api/firebase_verify.go:248-255 | For every 64-bit age, the printed max-age is honoured within the bounds if and only if its nanoseconds fit 64 bits or wrap around beyond the same bound |
| KeyCache.HugeMaxAgeWraps | cmd/api/firebase_verify.go:251-255 | All ages from some 292 to 584 years give one minute |
| KeyCache.FirebaseVerifier.RefreshLocked | cmd/api/firebase_verify.go:201-242 | On success keys, time and expiry are replaced together, else nothing changes |
| KeyCache.FirebaseVerifier.Key | cmd/api/firebase_verify.go:177-199 | The new cache and the served key for every branch; a failed fetch serves nothing |
| KeyCache.FallbackIsDead | cmd/api/firebase_verify.go:187-193 | The branch that serves held keys while the fetch fails is unreachable |
| KeyCache.ServedIsFresh | cmd/api/firebase_verify.go:181-198 | A served key belongs to the latest fetched set, which is younger than its time to live, at most 24 hours |
| KeyCache.LiveKeyIsServed | cmd/api/firebase_verify.go:181-184 | While the clock is before the latest fetch plus its time to live, each fetched key is served without a request, whatever a response would be, and nothing changes |
| KeyCache.ServedExactly | cmd/api/firebase_verify.go:177-199 | After any run a key is served if and only if it is held and live, or this very call fetches a usable set that has it, with that set's key |
| KeyCache.RefreshRate | cmd/api/firebase_verify.go:185-241 | For any clock readings, refreshes i and j of a run are at least j - i minutes apart |
| KeyCache.FetchAfterRefresh | cmd/api/firebase_verify.go:30-32 | Any fetch comes at least a minute after the latest successful one |
| KeyCache.NextFetch | cmd/api/firebase_verify.go:185-193 | After a call that fetched, on a clock not going back, a call whose key id is not held fetches if and only if that fetch failed or is a minute ago |
| KeyCache.FailedFetchesAreNotBounded | cmd/api/firebase_verify.go:185-193 | So while fetches fail, each of any number of calls with unknown key ids fetches, even at one instant |

## Left out

- Interleaving inside a transaction: row locks and statement snapshots are not modelled; each transaction is one step, and deadlock freedom is not claimed.
- Worker internals: goroutines, the mutex, progress, speed and tasks columns, job timeouts and probing are not modelled; a worker is the sequence of its repository calls and uploads.
- Fencing.FencingTheorem: the cluster works on values and lets a claim take any free row; the row order and the in-place update are proved for JobRepository.Repo.Claim.
- AtomicPlayback.ReadyVariantPlays: what FFmpeg writes is an assumption (an index within the size limit that lists plain names of its own directory), and so is that signing succeeds and yields no newline.
- AtomicityExact.PublicationExactly: all encodes of an asset share ladder and size, since these depend on the source object, which is taken not to change.
- Ladder.Width: the quotient is taken exactly, where the code divides floating-point numbers.
- Playlists.RewriteVariantPlaylist: the presigner is a fixed function during one call.
- PledgeDatabase.Database.InsertPledge: the users table, the message length check and captured_at are left out.
- PledgeHistory.Confluence: one pledge's own deliveries by order id, told down to the tables; noted ids and other traffic are in PledgeFate.ConfluenceAmidTraffic.
- Outbox.ExactlyOnceWhenCareful: a sufficient discipline; the exact condition for another copy is OutboxDispatcher.AnotherCopyExactly.
- OutboxDispatcher.OneDispatcherDrains: order per aggregate is not claimed, since the claim returns its rows in any order.
- Migrate.LoadMigrations: file names arrive parsed into version, name and kind.
- AccountMerge.LedgerTables.Merge: created_at is an integer, and the first-by-window account is computed by a fold.
- KeyCache.FirebaseVerifier.RefreshLocked: HTTP, JSON, PEM and X.509 are abstracted to a fetched set of keys or a failure; token claims and signatures are not part of this model.
- HTTP handlers, authentication, signature checks, JSON binding, logging and configuration: a parsed event with a verdict on its signature is the input.
- The Kafka consumer that enqueues jobs: it commits its offset even when Enqueue fails, so delivery from log to job is not a theorem.
- Refund execution, payouts, settlement and the deadline sweep: documented, but no code here performs them.
- Probe parsing, display dimensions, FFmpeg arguments, campaign field validation, the web client and seed data: short functions with easy claims, or no logic.
