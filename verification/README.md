# Wallet backend: a verified model

This project models the state machines of a NestJS wallet backend for Stellar and proves what they keep over whole
runs. Database tables are maps or sequences, a service is a class whose methods change them, and the clock is an
integer argument. Each class method is proved equal to a function from the old tables to the new tables and the reply.
Runs are sequences of such steps, failing ones included, and the theorems quantify over all runs.

| module | what it models |
|---|---|
| `Wallets` | wallet creation with idempotency records, lookup cache and rollback, and key rotation |
| `Csv`, `Base64`, `Download` | the CSV export, its storage in a data URI, signed download links |
| `RateLimit`, `Overlap` | the two fixed-window rate limiters and their cleanup, and checks that overlap |
| `Users` | concurrent find-or-create of users, as interleaved steps |
| `Webhooks` | delivery queue, batch passes, backoff, dead letters, replay, endpoint disabling |
| `HistoryImport` | the resumable Horizon history import |
| `Balances`, `Text` | the balance index, its events, syncs and cache, and the injectivity of its string keys |
| `Cache`, `SharedCache` | the in-memory TTL cache, and that its users' keys are apart |
| `Limits` | spending limits and the payments checked against them |
| `Latency` | the latency ring buffer, average and percentile |
| `RefreshTokens` | refresh-token rotation and revocation |
| `Transactions` | transaction status through creation, submission, polling and updates, and the cached reads |
| `Prelude` | `Option`, `Result` and a little integer arithmetic |

`dafny verify dfyconfig.toml` checks the whole project.

## Where the code departs from its comments

The model follows the code.

- The existing-wallet branch of wallet creation stores no idempotency record (`Wallets.ExistingWalletStoresNothing`),
  so another owner can reuse the key at once (`Wallets.ReuseCanSucceed`); `Wallets.ReuseIsRefused` says exactly when
  reuse is refused.
- Find-or-create can log in a user who is not active, in two ways. After a lost race the recovery path does not look at
  the status (`Users.SuspendedUserLogsIn`, `Users.BindsToInactive`); and a user suspended between the lookup and the
  update is updated all the same (`Users.SuspendedBeforeUpdate`). `Users.InactiveLogin` says exactly which steps do it,
  `Users.InactiveLoginCause` that there is no third way.
- A dispatched event reaches one endpoint, because the event id of a delivery is unique (`Webhooks.SecondEndpointMissed`);
  `Webhooks.DispatchReaches` says exactly whom it reaches.
- A poll that gets 404 makes a transaction FAILED instead of leaving it SUBMITTED (`Transactions.MissingPollFails`);
  `Transactions.PollDecides` says exactly when a poll leaves it SUBMITTED.
- A CSV export of no rows completes and can never be downloaded (`Download.CsvExportDownloads`).
- A removed spending limit is still enforced (`Limits.RemovedLimitDenies`, `Limits.RemovalChangesNothing`).
- Daily usage counts the payments of all wallets, and with transaction orchestration a payment counts twice, so the
  batch bound needs a factor of two (`Limits.BatchBound`, `Limits.DoubleCounting`).
- The first request in a window is admitted even with a limit of zero or less, hence `max(1, limit)` in `RateLimit`.
- A check finds its record and writes it later, so overlapping checks exceed the limit, and so do checks that find
  nothing because a check of the next window has purged the record (`Overlap.BoundIsReached`, `Overlap.PurgeAdmitsTwice`).
- The authentication limiter stores addresses in a column with a foreign key to the API keys, so its inserts fail and it
  refuses every request (`RateLimit.AdmittedIffKnown`). Its wait arithmetic is right for inserts that succeed
  (`RateLimit.RetryAfterIsEnough`).
- Events of one balance and ledger that disagree leave the balance of whichever comes last, or first if they also share
  the transaction hash (`Balances.OrderMatters`).
- An endpoint is disabled only by a failure, hence `max(1, maxConsecutiveFailures)` in `Webhooks`.
- Different balances can share a cache key (`Balances.CacheKeysCollide`); `Balances.KeyIsShared` and
  `Balances.SameCacheKey` say exactly when.

## Model

| member | source | states |
|---|---|---|
| `Wallets.WalletsFormChains` | src/key-management/key-management.service.ts:403-456 | In every run of creations and rotations, failures included, the wallets of a (user, network) form one finite chain: `rotatedFromId` and `successorId` are mutual inverses, `secretVersion` is the position, exactly the last wallet has no successor, and none is left PROVISIONING |
| `Wallets.PrivateKeyOnlyOnce` | src/wallets/wallet-creation-orchestrator.service.ts:233-396 | In every run exactly the first successful call for an owner returns the private key and reports a new wallet; every later one returns no key and a wallet of the owner's chain |
| `Wallets.SameWallet` | src/wallets/wallet-creation-orchestrator.service.ts:272-304 | As long as the owner's wallet has not been rotated, all successful calls for an owner return the same wallet id |
| `Wallets.KeyReplays` | src/wallets/wallet-creation-orchestrator.service.ts:637-731 | For 24 hours after a call has created a wallet under a key, every call with that key is refused or is for the same owner and repeats the first wallet and `isNewWallet` without the private key; without faults it is refused exactly when it is for another owner |
| `Wallets.LiveRecordAnswers` | src/wallets/wallet-creation-orchestrator.service.ts:637-675 | An unexpired record answers its key with its own contents, refuses other owners, and the call changes no table |
| `Wallets.RecordLives` | src/wallets/wallet-creation-orchestrator.service.ts:652-656 | No step of any run before a record's expiry removes or replaces it |
| `Wallets.ExistingWalletStoresNothing` | src/wallets/wallet-creation-orchestrator.service.ts:272-322 | After a successful keyed call the key has a record if and only if the call was a replay or the owner had no wallet before it; the existing-wallet branch stores none |
| `Wallets.ReuseIsRefused` | src/wallets/wallet-creation-orchestrator.service.ts:637-675 | In every run, for a call without faults and a clock that does not run backwards: reuse of a key is refused if and only if the key was used, at most 24 hours ago, by the first successful call of another owner, and storing that call's record did not fail; the contract promises it for every earlier use |
| `Wallets.Provenance` | src/wallets/wallet-creation-orchestrator.service.ts:688-731 | Every record in the table of every run was stored by the first successful call of its owner, and says what that call replied |
| `Wallets.ReuseSucceeds` | src/wallets/wallet-creation-orchestrator.service.ts:273-290 | For any two users: u without a key, u with a key, then v with that key are all served, and v gets a new wallet |
| `Wallets.ReuseCanSucceed` | src/wallets/wallet-creation-orchestrator.service.ts:273-290 | One such run, where the contract promises a refusal |
| `Wallets.StoresRecord` | src/wallets/wallet-creation-orchestrator.service.ts:688-731 | A call that creates a wallet under a key leaves the record of that wallet with a 24 hour expiry |
| `Wallets.CreateCommits` | src/wallets/wallet-creation-orchestrator.service.ts:246-396 | A call is refused with both tables as they were, or commits exactly what its transaction computed |
| `Wallets.CreateServed` | src/wallets/wallet-creation-orchestrator.service.ts:233-396 | A creation call is served if and only if the user is resolved, the lookup answers from cache or table, the key check answers without conflict, a wallet that has to be made is made, and the transaction commits |
| `Wallets.CreateAnswers` | src/wallets/wallet-creation-orchestrator.service.ts:272-331 | An owner without a wallet gets a new last row, ACTIVE, version 1, with the generated key, and the private key; an owner with wallets gets one of them, as not new and without a key, unless a live record says what to repeat; a lapsed record is dropped |
| `Wallets.ReplyShowsWallet` | src/wallets/wallet-creation-orchestrator.service.ts:500-522 | In every run the owner, network, public key, version and predecessor that a successful call shows are those of the row it names, then and ever after, and the owner is the caller |
| `Wallets.MissShowsRow` | src/wallets/wallet-creation-orchestrator.service.ts:512-521 | On a cache miss the lookup returns and caches for five minutes a row of the owner exactly as it stands |
| `Wallets.RefusedByConflict` | src/wallets/wallet-creation-orchestrator.service.ts:663-673 | A call without faults is refused if and only if another owner's live record holds its key, and then as a conflict |
| `Wallets.RefusedByFault` | src/wallets/wallet-creation-orchestrator.service.ts:348-396 | With one fault a refusal names that phase, or the conflict |
| `Wallets.CreateKeeps` | src/wallets/wallet-creation-orchestrator.service.ts:246-331 | One call keeps the owner's invariant, adds the first wallet or answers with one the owner has, and touches no other owner |
| `Wallets.RotateKeeps` | src/key-management/key-management.service.ts:403-456 | One rotation appends exactly the successor to its owner's chain, leaves other owners' chains alone, and keeps records and cache about wallets of the chain |
| `Wallets.RotateDecides` | src/key-management/key-management.service.ts:403-456 | A rotation succeeds if and only if the wallet exists, is ACTIVE or ROTATING, has no successor and no phase fails; the successor has the generated key, the same owner and the next version, the predecessor becomes ROTATING and keeps its key, nothing else changes; each refusal names its reason |
| `Wallets.LinkExtends` | src/key-management/key-management.service.ts:428-456 | Writing the successor row and the link together extends a chain at its end and no other chain |
| `Wallets.RunCoherent` | src/wallets/wallet-creation-orchestrator.service.ts:233-396 | The invariant of one owner, over wallets, idempotency records and the lookup cache, holds after every run |
| `Wallets.CacheKeyInjective` | src/wallets/wallet-creation-orchestrator.service.ts:974-976 | Different (user, network) pairs never share a cache key, whatever the user id contains |
| `Wallets.WalletService.FindExistingWallet` | src/wallets/wallet-creation-orchestrator.service.ts:500-522 | Cache first, then any row of the owner, which is then cached; a failing query is passed on |
| `Wallets.WalletService.CreateNewWallet` | src/wallets/wallet-creation-orchestrator.service.ts:531-620 | Any phase may fail; otherwise a version 1 wallet that ends ACTIVE, its private key, and the stored record unless only storing failed |
| `Wallets.WalletService.RunTransaction` | src/wallets/wallet-creation-orchestrator.service.ts:246-304 | Replay, conflict, lapsed record, existing wallet and new wallet, in that order |
| `Wallets.WalletService.CreateWallet` | src/wallets/wallet-creation-orchestrator.service.ts:233-396 | The new tables, cache and reply of a call; refused calls leave both tables as they were |
| `Wallets.WalletService.RotateKey` | src/key-management/key-management.service.ts:403-456 | The four refusals, or the linked successor; nothing is written when the transaction fails |
| `Csv.ExportRoundTrip` | src/transactions/transaction-export.service.ts:482-524 | For every non-empty list of rows with arbitrary text, a reader written from section 2 of RFC 4180 with LF as record break returns the header record and then each row's fields, null as empty text |
| `Csv.CsvRoundTrip` | src/transactions/transaction-export.service.ts:508-524 | The same for any two or more header names that need no quotes |
| `Csv.RecordRead` | src/transactions/transaction-export.service.ts:508-521 | Reading the joined escaped cells of one row yields exactly the cells' texts |
| `Csv.FieldRead` | src/transactions/transaction-export.service.ts:508-516 | Reading one escaped cell yields its text, through the quoted or the plain path |
| `Csv.QuotedOnlyIfNeeded` | src/transactions/transaction-export.service.ts:508-516 | A field is written as it is if and only if it has no comma, quote or line break |
| `Csv.NoBreakAtEnd` | src/transactions/transaction-export.service.ts:523-523 | The text does not end with a line break |
| `Csv.SerializeRows` | src/transactions/transaction-export.service.ts:518-524 | The loop builds the header line and one line per row |
| `Csv.SerializeCsv` | src/transactions/transaction-export.service.ts:482-524 | The text of the export, which the reader inverts |
| `Base64.DecodeEncode` | src/transactions/transaction-export.service.ts:92-100 | Decoding inverts encoding for all bytes, in the alphabets of sections 4 and 5 of RFC 4648 |
| `Base64.UrlSafeText` | src/transactions/transaction-export.service.ts:92-102 | URL-safe text never contains the dot that separates the parts of a token |
| `Base64.EncodedLength` | src/transactions/transaction-export.service.ts:282-282 | The standard text is padded to whole groups of four, the URL-safe text is not |
| `Base64.Vectors` | src/transactions/transaction-export.service.ts:282-282 | Test vectors of section 10 of RFC 4648, and the digits in which the alphabets differ |
| `Download.TokenRoundTrip` | src/transactions/transaction-export.service.ts:80-150 | For every TTL request the expiry lies 5 minutes to 24 hours ahead (the request itself when in range), and a token verifies to its payload up to and including its expiry and never after |
| `Download.DataUriRoundTrip` | src/transactions/transaction-export.service.ts:282-282 | The stored URI parses back to MIME type and text if and only if there is at least one byte |
| `Download.DownloadRoundTrip` | src/transactions/transaction-export.service.ts:327-408 | A link of a completed job resolves, at any time up to its expiry, to exactly the stored bytes, MIME type and file name if and only if the content is not empty; under another job id it is refused |
| `Download.CsvExportDownloads` | src/transactions/transaction-export.service.ts:261-295 | An export of no rows completes and gets a link that can never be downloaded; any other CSV export downloads as its text |
| `Download.DownloadedRowsReadBack` | src/transactions/transaction-export.service.ts:261-408 | From rows to link to download to text to records: the rows of an export are read back field by field |
| `Download.JsonExportDownloads` | src/transactions/transaction-export.service.ts:275-282 | A JSON export downloads as its text, under its type and file name |
| `Download.TokenAccepted` | src/transactions/transaction-export.service.ts:115-150 | Any text is accepted as a token if and only if it is two parts, the second the signature of the first, the first a payload that has not expired |
| `Download.IssueDecides` | src/transactions/transaction-export.service.ts:327-354 | A link is issued if and only if the job is there, of that project, completed and with stored data; the other refusals |
| `Download.ResolveDecides` | src/transactions/transaction-export.service.ts:364-408 | An accepted token downloads if and only if it names the job, and the job is its project's, completed and readable |
| `Download.ExportNotes` | src/transactions/transaction-export.service.ts:284-313 | A run notes its rows and a day of storage, or the first 500 characters of its error, and then no link is issued |
| `Download.FileNames` | src/transactions/transaction-export.service.ts:404-405 | The file is named after the job, with the extension of its format |
| `Download.TextRoundTrip` | src/transactions/transaction-export.service.ts:282-282 | UTF-8 decoding inverts the encoding of every text |
| `Download.Serialize` | src/transactions/transaction-export.service.ts:275-277 | The bytes of an export are the UTF-8 of its CSV or JSON text |
| `Download.ExportService.RunExport` | src/transactions/transaction-export.service.ts:261-313 | The job ends COMPLETED with its data URI and row count, or FAILED with at most 500 characters of message |
| `RateLimit.WindowAdmits` | src/rate-limit/rate-limit.service.ts:57-165 | With any cleanups, streams and faults around it, each aligned window of a stream admits at most max(1, limit), and exactly min(requests, max(1, limit)) when no database call fails |
| `RateLimit.SlidingBound` | src/rate-limit/rate-limit.service.ts:57-165 | Any interval of the window's length admits at most twice max(1, limit) |
| `RateLimit.RetryAfterIsEnough` | src/auth/auth-rate-limit.service.ts:42-144 | A refused caller that alone waits the advertised seconds is admitted if then no database call fails, whatever other streams and cleanups do meanwhile; for address keys the insert does fail, see `AdmittedIffKnown` |
| `RateLimit.AdmittedIffKnown` | src/auth/auth-rate-limit.service.ts:42-144 | A key is admitted in some run if and only if it is the id of an API key, which the foreign key of the records demands |
| `RateLimit.StrangersNeverAdmitted` | src/auth/auth-rate-limit.service.ts:62-82 | In no run is a key admitted, or does it have a record, that is not the id of an API key; the authentication limiter's address keys are not |
| `RateLimit.WaitOutlastsWindow` | src/auth/auth-rate-limit.service.ts:91-144 | However a request is refused, the advertised wait ends after its window |
| `RateLimit.QuietStreamAdmitted` | src/rate-limit/rate-limit.service.ts:57-165 | A stream without requests since before the running window is admitted |
| `RateLimit.StreamInvariant` | src/rate-limit/rate-limit.service.ts:57-165 | After every run the stored count of a running window is the number of requests it admitted |
| `Overlap.OverlapBound` | src/rate-limit/rate-limit.service.ts:57-165 | Whatever the schedule, the failures and the purges by later windows and cleanups, a window in which at most k checks overlap between find and write admits at most (purges + 1) * (limit + k - 1) requests, with 1 in place of the second factor if the limit is at most one |
| `Overlap.BoundIsReached` | src/rate-limit/rate-limit.service.ts:78-150 | For every limit, every k (only 1 for a limit of at most one) and any number of purges a schedule with k overlapping checks admits exactly that many |
| `Overlap.PurgeAdmitsTwice` | src/rate-limit/rate-limit.service.ts:90-109 | With a limit of one and checks one at a time, a purge before the second check lets the window admit two |
| `Overlap.UninterruptedCheck` | src/rate-limit/rate-limit.service.ts:57-165 | A check that is not interrupted does to its record, and answers, what the check as one step does |
| `RateLimit.CleanupIsHarmless` | src/rate-limit/rate-limit.service.ts:191-200 | A cleanup spares the running window in every table if and only if its age reaches back to the window's start; an age of at least a window always does |
| `RateLimit.CheckDecides` | src/rate-limit/rate-limit.service.ts:57-165 | A check is allowed if and only if its window has no record or one below the limit and no call it makes fails; the remaining requests, the limit and the reset time it tells |
| `RateLimit.CheckTouches` | src/rate-limit/rate-limit.service.ts:89-109 | A check writes its own record and deletes only older records of its stream, all of them when it starts a window |
| `RateLimit.WaitIsTight` | src/auth/auth-rate-limit.service.ts:92-98 | The wait told at the limit ends less than a second after the window; after a failure it is one window, rounded up |
| `RateLimit.AddressesApart` | src/auth/auth-rate-limit.service.ts:47-47 | Different addresses are different streams |
| `RateLimit.EagerCleanupBreaksLimit` | src/rate-limit/rate-limit.service.ts:191-200 | With a shorter age a window limited to one request admits two |
| `RateLimit.RateLimitService.CheckRateLimit` | src/rate-limit/rate-limit.service.ts:57-165 | Create, count, refuse and purge older windows; a database failure, and the insert for a key that is no API key, refuses with a reset one window ahead |
| `RateLimit.RateLimitService.CheckAuthRateLimit` | src/auth/auth-rate-limit.service.ts:42-144 | The same table under the address key, with the wait in whole seconds, a whole window when the database failed; an address that is no API key is always refused |
| `RateLimit.RateLimitService.CleanupOldRecords` | src/rate-limit/rate-limit.service.ts:191-200 | Exactly the windows older than the age disappear, and their number is returned |
| `Users.CallsAgree` | src/users/idempotent-user.service.ts:71-169 | Under every interleaving any two calls for an authId that return do so with the same user id, at most one of them as new; calls for different authIds return different users |
| `Users.OneRowPerAuthId` | src/users/idempotent-user.service.ts:71-169 | Rows are created for an authId at most once, only where there was none, and exactly the creator reports a new user |
| `Users.NoCallThrows` | src/users/idempotent-user.service.ts:136-169 | When the database answers, ids are fresh and nobody is suspended, no call throws: losing the race ends in the winner's row |
| `Users.BindsToInactive` | src/users/idempotent-user.service.ts:92-169 | In any state a step binds a call to a row that is not active if and only if the call has lost the race, the database answers and the row is there: only the first lookup checks the status |
| `Users.LoginsFoundActive` | src/users/idempotent-user.service.ts:71-169 | Under every schedule a call that returns an existing user found that user active in its first lookup, or lost the race before it found the user |
| `Users.InactiveLogin` | src/users/idempotent-user.service.ts:90-166 | In every reachable state a step returns a call with a user who is not active if and only if the call is at either of its updates, the database answers, and its row is not active by then |
| `Users.InactiveLoginCause` | src/users/idempotent-user.service.ts:71-169 | Under every schedule a login of a user who is not active has one of two causes: the user was suspended or disabled after the lookup that found the user active, or the call lost the race before it found the user |
| `Users.StepWrites` | src/users/idempotent-user.service.ts:93-130 | In every reachable state a login stamps the time on the row of its authId alone, a creation inserts an active row with the fresh id, and no other step writes |
| `Users.ThrowsExactlyIf` | src/users/idempotent-user.service.ts:131-169 | A step makes a call throw if and only if its database call fails, its first lookup finds a user who is not active, its second finds nobody, or the row of its update is gone |
| `Users.SuspendedBeforeUpdate` | src/users/idempotent-user.service.ts:90-101 | A schedule of a single call without a race: the user is suspended between lookup and update and is logged in |
| `Users.SuspendedUserLogsIn` | src/users/idempotent-user.service.ts:145-166 | A schedule in which the loser of a race logs in a user whom its lookup finds suspended |
| `Users.EveryStepAdvances` | src/users/idempotent-user.service.ts:71-169 | Each step of a call brings it closer to its end, so a call takes at most four steps of its own |
| `Users.InvHolds` | src/users/idempotent-user.service.ts:71-169 | Unique ids, bound calls and the creator record hold after every schedule |
| `Webhooks.PostsMatchAttempts` | src/webhooks/webhook-dispatcher.service.ts:99-322 | In every run the posts for a delivery since creation or last replay equal `attempts`, plus one once DELIVERED, and never exceed maxRetries; RETRYING means 1 <= attempts < maxRetries; the delays granted total at most base * (2^(maxRetries-1) - 1) |
| `Webhooks.FailuresMatchDeadLetters` | src/webhooks/webhook-retry.service.ts:111-165 | In every run `consecutiveFailures` is the endpoint's dead letters since its last success, and an ACTIVE endpoint is below max(1, maxConsecutiveFailures) |
| `Webhooks.PassProgress` | src/webhooks/webhook-dispatcher.service.ts:99-158 | One pass posts once per fetched delivery whose endpoint was ACTIVE and to no endpoint that was not, lowers the sum of (maxRetries - attempts) over open deliveries by at least that number, and its counters add up to the batch |
| `Webhooks.PassDecides` | src/webhooks/webhook-dispatcher.service.ts:99-267 | The k-th delivery of a pass ends as its own reply decides, by its endpoint's status at the start: unchanged, DELIVERED, RETRYING with its next attempt after base * 2^attempts, or FAILED |
| `Webhooks.RetriedExactlyIf` | src/webhooks/webhook-dispatch.service.ts:147-161 | An attempt to an active endpoint is retried if and only if it is refused, was not the last, and got no status, 0 or at least 500; it is dead-lettered if and only if it is refused and that does not hold |
| `Webhooks.AttemptDecides` | src/webhooks/webhook-dispatcher.service.ts:163-267 | One attempt changes its own row and its endpoint's counter and status as the reply decides, and nothing else |
| `Webhooks.FetchedExactlyFrom` | src/webhooks/webhook-dispatcher.service.ts:107-121 | A delivery to be retried may be fetched if and only if its delay is over; one that is done may not, a fresh one at once |
| `Webhooks.PassCounts` | src/webhooks/webhook-dispatcher.service.ts:123-157 | The three counters are the deliveries that ended so, skipped ones counting as failed |
| `Webhooks.DisabledExactlyIf` | src/webhooks/webhook-retry.service.ts:137-165 | In every run an endpoint is FAILED if and only if at some moment its dead letters since its last success had reached the maximum, and else it is ACTIVE |
| `Webhooks.ReplayDecides` | src/webhooks/webhook.service.ts:324-349 | A replay makes exactly a dead letter a fresh delivery and changes nothing else |
| `Webhooks.DrainBound` | src/webhooks/webhook-dispatcher.service.ts:99-158 | After any run, passes alone, however many, post at most as often as the open deliveries have attempts left |
| `Webhooks.DispatchReaches` | src/webhooks/webhook-dispatcher.service.ts:56-96 | A dispatch queues one delivery, for the first active subscriber and only if the event is new; it succeeds if and only if no other active subscriber was left, although all are meant to get one |
| `Webhooks.OneDeliveryPerEvent` | src/webhooks/webhook-dispatcher.service.ts:285-300 | In every run no two deliveries are of the same event |
| `Webhooks.SecondEndpointMissed` | src/webhooks/webhook-dispatcher.service.ts:56-96 | Two active endpoints subscribed to one event: the first alone gets a delivery and the dispatch fails |
| `Webhooks.TotalDelayClosed` | src/webhooks/webhook-retry.service.ts:41-45 | The backoff delays after the first n attempts total base * (2^n - 1) |
| `Webhooks.PassKeeps` | src/webhooks/webhook-dispatcher.service.ts:99-267 | A pass over any due batch with any replies keeps the accounts of every delivery and endpoint |
| `Webhooks.RunKeeps` | src/webhooks/webhook-dispatcher.service.ts:56-322 | Dispatches, passes and replays keep them from empty tables on |
| `Webhooks.WebhookDispatcher.DispatchEvent` | src/webhooks/webhook-dispatcher.service.ts:56-96 | One insert per subscribed endpoint that is ACTIVE, in order, up to the first that meets the event id in the table, which fails the dispatch |
| `Webhooks.WebhookDispatcher.CreateDelivery` | src/webhooks/webhook-dispatcher.service.ts:285-300 | A PENDING row without attempts, unless the event already has one |
| `Webhooks.WebhookDispatcher.ProcessDeliveries` | src/webhooks/webhook-dispatcher.service.ts:99-158 | The batch attempted in order on the rows as read, and the three counters |
| `Webhooks.WebhookDispatcher.AttemptDelivery` | src/webhooks/webhook-dispatcher.service.ts:163-267 | Skip, deliver, back off or dead-letter, with delivery and endpoint rows after it |
| `Webhooks.WebhookDispatcher.MarkEndpointFailure` | src/webhooks/webhook-retry.service.ts:137-165 | One more failure, and FAILED from the maximum on |
| `Webhooks.WebhookDispatcher.ReplayDeadLetter` | src/webhooks/webhook.service.ts:324-349 | A FAILED delivery becomes PENDING without attempts; anything else is refused |
| `HistoryImport.ExactlyOnce` | src/horizon-history-import/horizon-history-import.service.ts:76-174 | In every mix of growth, successes and failures at upsert, fetch or persist, the successful pages of a stream concatenated are its history up to the cursor, once each and in order, and `recordsImported` is their number |
| `HistoryImport.ReachesEnd` | src/horizon-history-import/horizon-history-import.service.ts:76-174 | With r records unseen the import is at the end after exactly the segments with at least ceil(r / limit) successes, and a further success changes neither cursor nor count |
| `HistoryImport.Progress` | src/horizon-history-import/horizon-history-import.service.ts:76-174 | Only successes advance the import, each by one page or to the end |
| `HistoryImport.NextPage` | src/horizon-history-import/horizon-history-import.service.ts:114-135 | The page after the cursor of an imported prefix is the next piece of the history |
| `HistoryImport.InvStep` | src/horizon-history-import/horizon-history-import.service.ts:76-174 | One step of any kind on any stream keeps cursor, counter and imported prefix in agreement |
| `HistoryImport.ResumeDecides` | src/horizon-history-import/horizon-history-import.service.ts:76-174 | A success completes the row, clears its error and reports its cursor, count and page size; a failure keeps cursor and count and is marked with its message, or stays RUNNING if that fails; other streams are untouched |
| `HistoryImport.NormalizePageLimit` | src/horizon-history-import/horizon-history-import.service.ts:233-236 | A request between 1 and 200 is kept, anything else becomes 200 |
| `HistoryImport.HistoryImportService.ResumeImport` | src/horizon-history-import/horizon-history-import.service.ts:76-174 | The new cursor row, imported pages and reply for every outcome |
| `HistoryImport.HistoryImportService.UpsertCursor` | src/horizon-history-import/horizon-history-import.service.ts:88-107 | The stream's row is RUNNING and keeps its cursor and count, or is created without |
| `HistoryImport.HistoryImportService.RecordFailure` | src/horizon-history-import/horizon-history-import.service.ts:243-263 | Status and message are noted, cursor and count kept, or nothing when noting fails |
| `Balances.EventsConverge` | src/balance-indexer/balance-indexer.service.ts:329-366 | Whatever the order and duplicates of a balance's events, the row ends at an event with the highest ledger, and with that ledger's balance if its events agree on it; other balances, other wallets' syncs, reads and restarts may come in between |
| `Balances.OrderMatters` | src/balance-indexer/balance-indexer.service.ts:329-366 | The agreement is needed: any two events of one balance and ledger with different balances leave different balances in the two orders |
| `Balances.OrderCanMatter` | src/balance-indexer/balance-indexer.service.ts:329-366 | Two such events |
| `Balances.EventDecides` | src/balance-indexer/balance-indexer.service.ts:329-366 | An event is applied, and remembered, if and only if it is new and not older than the row |
| `Balances.UpdateDecides` | src/balance-indexer/balance-indexer.service.ts:883-928 | An update is written if and only if it is forced, the balance is new or its ledger is not below the row's; the row is then the update's |
| `Balances.SyncDecides` | src/balance-indexer/balance-indexer.service.ts:432-446 | A sync of different assets decides for each by its own update and the row before |
| `Balances.SyncIsSeen` | src/balance-indexer/balance-indexer.service.ts:479-481 | After a finished sync every read sees the table, whatever was cached |
| `Balances.BrokenSyncMarks` | src/balance-indexer/balance.repository.ts:108-113 | A broken sync marks every row of the wallet and no other as failed, and keeps the cache |
| `Balances.MissingAccountIsZero` | src/balance-indexer/balance.repository.ts:81-106 | A wallet whose account is not on chain has a native balance of zero at the ledger it had |
| `Balances.FreshReadIsCached` | src/balance-indexer/balance-indexer.service.ts:279-314 | A read of a fresh row is repeated from the cache for a minute, whatever the table does |
| `Balances.LedgerNeverDecreases` | src/balance-indexer/balance-indexer.service.ts:883-928 | In every run of events, unforced syncs, zeroings, reads and restarts no row's `lastSyncedLedger` decreases |
| `Balances.ForcedUpdateCanLower` | src/balance-indexer/balance-indexer.service.ts:883-928 | A forced update lowers a ledger if and only if it is older than the row |
| `Balances.ReadsAreRecent` | src/balance-indexer/balance-indexer.service.ts:279-314 | Every read returns what the table holds now or held at a read at most 60000 ms ago, and a cached result was synced at most the stale threshold plus 60000 ms ago |
| `Balances.CacheInv` | src/balance-indexer/balance-cache.service.ts:15-41 | Every cache entry of every run was put by a read that found exactly that row, fresh enough, at that time |
| `Balances.KeyIsShared` | src/balance-indexer/balance-cache.service.ts:39-41 | For every balance: some other balance, different by more than null against empty, has its cache key if and only if one of its components holds a colon |
| `Balances.SameCacheKey` | src/balance-indexer/balance-cache.service.ts:39-41 | With no colon before the issuer, two balances share a key if and only if they agree up to null against empty code and issuer |
| `Balances.CacheKeyInjective` | src/balance-indexer/balance-cache.service.ts:39-41 | Cache keys identify balances without colons and with null rather than empty code and issuer |
| `Balances.CacheKeysCollide` | src/balance-indexer/balance-cache.service.ts:39-41 | Both kinds of collision: null against empty code, and a colon inside a code |
| `Balances.EventKeyInjective` | src/balance-indexer/balance-indexer.service.ts:964-971 | The processed-event key identifies balance, ledger and transaction hash |
| `Balances.BalanceIndexer.IndexBalanceEvent` | src/balance-indexer/balance-indexer.service.ts:329-366 | Processed and older events are skipped, the others are applied with force and remembered |
| `Balances.BalanceIndexer.ApplyBalanceUpdate` | src/balance-indexer/balance-indexer.service.ts:883-928 | Applied if and only if forced or not older than the row; a mismatch is a changed balance of an existing row |
| `Balances.BalanceIndexer.SyncWalletBalances` | src/balance-indexer/balance-indexer.service.ts:372-517 | A finished sync applies all fetched balances in order, counts those applied and clears the cache; a broken one applies the first of them and marks the rows failed; a missing account gets the native zero row; the last two keep the cache |
| `Balances.BalanceIndexer.ReadBalance` | src/balance-indexer/balance-indexer.service.ts:279-314 | Cache, then table; only fresh rows are cached |
| `Text.JoinInjective` | src/balance-indexer/balance-cache.service.ts:39-41 | Joining with colons is injective when only the last part may contain one |
| `Text.JoinUnique` | src/balance-indexer/balance-cache.service.ts:39-41 | What joins to the same text as colon-free parts, in as many parts, has the same parts |
| `Text.DecimalInjective` | src/balance-indexer/balance-indexer.service.ts:964-971 | Different ledger numbers have different decimal texts |
| `Cache.LookupIsLastWrite` | src/common/cache/cache.service.ts:17-58 | In every run of lookups, writes, deletes and clears, a lookup no earlier than those before it returns the last value written to the key while live and nothing otherwise |
| `Cache.CacheService.Lookup` | src/common/cache/cache.service.ts:17-32 | A live value, or a miss that drops an expired entry |
| `Cache.CacheService.Set` | src/common/cache/cache.service.ts:38-42 | The entry lives for its TTL |
| `Cache.CacheService.Delete` | src/common/cache/cache.service.ts:47-49 | The key is gone, and whether it was there is returned |
| `Cache.CacheService.Clear` | src/common/cache/cache.service.ts:54-57 | No entries are left |
| `SharedCache.KeysApart` | src/common/cache/cache.service.ts:11-11 | The services that share the cache never use the same key, whatever their ids |
| `Limits.DailyLimitHolds` | src/payments/payments.service.ts:98-273 | With non-negative amounts and a positive daily limit, serial payments by any wallets, with keys, orchestration and limit removals, never admit more for a wallet in a day than its limit |
| `Limits.BatchBound` | src/payments/payments.service.ts:227-273 | For batch payments of any wallets and keys, however checks, payment rows and transaction rows interleave: a wallet with k of them and usage U within its daily limit D spends at most k * min(per-transaction limit, D - U), and its usage ends at most at U + rows * that plus the payments of other wallets, rows being 1, or 2 with transaction orchestration |
| `Limits.DoubleCounting` | src/limits/limits.service.ts:52-84 | With orchestration the bound without that factor fails: one payment of 10 is counted as 20 |
| `Limits.RemainingIsExact` | src/limits/limits.service.ts:160-292 | For positive amounts within the per-transaction limit the check passes if and only if the amount is at most the reported remainder |
| `Limits.RemovalChangesNothing` | src/limits/limits.service.ts:297-310 | A removed limit is still enforced: removal changes no decision |
| `Limits.RemovedLimitDenies` | src/limits/limits.service.ts:297-310 | A payment that only a removed limit forbids is denied |
| `Limits.CheckDecides` | src/limits/limits.service.ts:197-292 | A check passes if and only if the amount is within the per-transaction limit, unless negative, and with the day's usage within the daily limit, unless not positive; the per-transaction limit is named first |
| `Limits.CreateDecides` | src/payments/payments.service.ts:98-225 | A payment is written if and only if no payment has the key, the wallets are valid and the limits leave room; otherwise the books do not change; when the outcome is created, existing, invalid or failed |
| `Limits.OnePaymentPerKey` | src/payments/payments.service.ts:118-141 | In every run, once a payment with a key is written, no later one with the key changes the books; the answer is the existing payment unless the key is empty |
| `Limits.UninterruptedCreation` | src/payments/payments.service.ts:227-235 | A creation of a batch that is not interrupted does what a single creation does |
| `Limits.PaymentsService.GetDailyUsageTotal` | src/limits/limits.service.ts:52-84 | The wallet's own transactions plus the payments of all wallets since the start of day |
| `Limits.PaymentsService.CheckLimits` | src/limits/limits.service.ts:197-292 | Per-transaction first, then daily, each with its sentinel values |
| `Limits.PaymentsService.CreatePayment` | src/payments/payments.service.ts:98-225 | Existing key, failed checks, denied limit, taken empty key, or the rows written, of which the payment stays when the transaction step fails |
| `Limits.PaymentsService.RemoveLimits` | src/limits/limits.service.ts:297-310 | Only `deletedAt` changes |
| `Latency.HoldsLastSamples` | src/auth/auth-metrics.service.ts:126-136 | After any n records since a reset a buffer of any capacity c holds, as a multiset, exactly the last min(n, c) samples; the service's capacity is 1000 |
| `Latency.Rotation` | src/auth/auth-metrics.service.ts:126-136 | A full buffer is the last samples rotated at the write position |
| `Latency.PercentileIsUnique` | src/auth/auth-metrics.service.ts:144-149 | The two counts promised of a percentile determine it |
| `Latency.KthSmallest` | src/auth/auth-metrics.service.ts:144-149 | The entry at a rank of the sorted copy is a sample with at most that many below it and more up to it |
| `Latency.SortSorts` | src/auth/auth-metrics.service.ts:146-146 | The sorted copy is ascending, a permutation, and keeps both counts |
| `Latency.AuthMetricsService.RecordLatency` | src/auth/auth-metrics.service.ts:126-136 | One more sample since the reset, and the buffer holds the last of them |
| `Latency.AuthMetricsService.Reset` | src/auth/auth-metrics.service.ts:112-122 | No samples since the reset |
| `Latency.AuthMetricsService.ComputeAverage` | src/auth/auth-metrics.service.ts:138-142 | Within half a millisecond of the mean, halves up; 0 without samples |
| `Latency.AuthMetricsService.ComputePercentile` | src/auth/auth-metrics.service.ts:144-149 | A sample with fewer than k samples below it and at least k up to it, for k = max(1, ceil(pct * n / 100)); 0 without samples |
| `RefreshTokens.ActiveIsTip` | src/auth/refresh-token.service.ts:29-141 | In every run, crashes between the two rotation writes included, tokens of one origin form a single path of one user, at most one of them is ACTIVE and it is the tip |
| `RefreshTokens.NeverActiveAgain` | src/auth/refresh-token.service.ts:29-141 | A token that has stopped being ACTIVE never is again |
| `RefreshTokens.OnePath` | src/auth/refresh-token.service.ts:64-82 | Two lineages from the same origin agree as far as both go |
| `RefreshTokens.RotationConserves` | src/auth/refresh-token.service.ts:41-82 | A completed rotation keeps every user's number of ACTIVE tokens; a cut one loses at most one; a refused one changes nothing |
| `RefreshTokens.UseConserves` | src/auth/refresh-token.service.ts:84-114 | The same for validate-and-rotate |
| `RefreshTokens.UseIsRotation` | src/auth/refresh-token.service.ts:84-114 | Validate-and-rotate changes nothing or is the rotation of the token with its use counted |
| `RefreshTokens.RotateDecides` | src/auth/refresh-token.service.ts:41-82 | With a new hash and no interruption a rotation succeeds if and only if the token is there, ACTIVE and not expired; it retires the token and appends its successor; a refusal changes nothing and says which of the three failed |
| `RefreshTokens.UseDecides` | src/auth/refresh-token.service.ts:84-114 | The same for validate-and-rotate, which also counts the use |
| `RefreshTokens.RotationCanLose` | src/auth/refresh-token.service.ts:60-79 | To a hash in use, or cut before the insert, the token is retired without a successor |
| `RefreshTokens.CutBeforeRetiring` | src/auth/refresh-token.service.ts:41-62 | A rotation cut before it retires the token has changed nothing |
| `RefreshTokens.UseCutBeforeRetiring` | src/auth/refresh-token.service.ts:97-111 | A use cut there has counted the use and nothing more |
| `RefreshTokens.CreateDecides` | src/auth/refresh-token.service.ts:29-39 | A token is appended, ACTIVE and without predecessor, if and only if its hash is new |
| `RefreshTokens.RevokedForGood` | src/auth/refresh-token.service.ts:116-141 | In every run a token revoked by hash or with its user never works again: every later rotation or use of it is refused |
| `RefreshTokens.RevokeUserDecides` | src/auth/refresh-token.service.ts:128-141 | Revoking a user leaves the user without ACTIVE tokens and every other token as it was |
| `RefreshTokens.RunKeeps` | src/auth/refresh-token.service.ts:29-141 | The linking invariant holds after every run, and rows only ever leave ACTIVE |
| `RefreshTokens.RefreshTokenService.CreateRefreshToken` | src/auth/refresh-token.service.ts:29-39 | A new ACTIVE row, unless the hash is taken |
| `RefreshTokens.RefreshTokenService.RotateRefreshToken` | src/auth/refresh-token.service.ts:41-82 | The refusals, or the old row retired and its successor inserted, with a crash possible between |
| `RefreshTokens.RefreshTokenService.ValidateAndRotateToken` | src/auth/refresh-token.service.ts:84-114 | The refusals, the usage count, then the rotation |
| `RefreshTokens.RefreshTokenService.RevokeRefreshToken` | src/auth/refresh-token.service.ts:116-126 | The row of that hash is revoked, if there is one |
| `RefreshTokens.RefreshTokenService.RevokeUserRefreshTokens` | src/auth/refresh-token.service.ts:128-141 | Exactly the user's ACTIVE rows are revoked |
| `Transactions.CachedReadIsPlainRead` | src/transactions/transactions.service.ts:244-339 | For any lawful transition relation and every serial run, a cached read equals the plain table read, at any time |
| `Transactions.TerminalIsFinal` | src/transactions/transactions.service.ts:272-339 | A CONFIRMED or FAILED row is never changed by a later step of the run |
| `Transactions.ConfirmedAfterSubmitted` | src/transactions/transactions.service.ts:272-339 | Every CONFIRMED row has submittedAt <= confirmedAt |
| `Transactions.AllowedIsLawful` | src/transactions/domain/transaction.model.ts:79-93 | The repository's own transition table has no edge out of CONFIRMED or FAILED and none from PENDING to CONFIRMED |
| `Transactions.MissingPollFails` | src/transactions/transaction-polling.service.ts:207-213 | In any poll a 404 for a SUBMITTED transaction with a hash makes it FAILED, although the result made up for it is meant to leave it SUBMITTED |
| `Transactions.PollDecides` | src/transactions/transaction-polling.service.ts:102-187 | A poll leaves a row read as SUBMITTED in that status if and only if it has no hash, the query fails, the write fails, or Horizon answers with HTTP 202 or an unsuccessful `tx_queued`; otherwise the row is CONFIRMED if Horizon reports success and FAILED if not |
| `Transactions.PollCounts` | src/transactions/transaction-polling.service.ts:102-187 | The counters of a poll are exactly the rows it confirmed, the rows it failed and the turns that erred |
| `Transactions.OneTransactionPerKey` | src/transactions/transactions.service.ts:46-154 | In every run a key belongs to at most one transaction, and a later creation with it adds nothing: it is a replay unless the memo is bad or the key is empty |
| `Transactions.CreateDecides` | src/transactions/transactions.service.ts:46-154 | A transaction is created if and only if all checks pass and neither its id nor its key is in use; when it is a replay and when denied |
| `Transactions.UpdateDecides` | src/transactions/transactions.service.ts:272-339 | An update happens if and only if the row is there, the relation allows it, the write succeeds and the hash is free; it stamps the time of its status, keeps what it is not given and drops the cache entry; each refusal names its reason |
| `Transactions.SubmitDecides` | src/transactions/horizon-submission.service.ts:47-141 | What a submission of a PENDING row leaves for each answer: status, times, hash, ledger and reason, and what it returns |
| `Transactions.SubmitStops` | src/transactions/horizon-submission.service.ts:113-130 | A submission whose first write is refused or fails changes nothing and returns that error |
| `Transactions.HalfSubmitted` | src/transactions/horizon-submission.service.ts:113-130 | When the second write of a confirmed submission fails, the row stays SUBMITTED with the hash it had before |
| `Transactions.ReadIsCached` | src/transactions/transactions.service.ts:244-267 | A read leaves the row in the cache for five minutes and changes no other entry |
| `Transactions.UpdateKeeps` | src/transactions/transactions.service.ts:272-339 | A status update keeps rows lawful, terminal rows unchanged and the cache equal to the table |
| `Transactions.SubmitKeeps` | src/transactions/horizon-submission.service.ts:47-141 | So does a submission, with either of its writes failing |
| `Transactions.PollKeeps` | src/transactions/transaction-polling.service.ts:102-187 | So does a poll; it processes every row it read and counts each at most once |
| `Transactions.TransactionsService.CreateTransaction` | src/transactions/transactions.service.ts:46-154 | Bad memo, replay of the key's transaction, missing wallet, low balance, taken empty key, or the new PENDING row, in that order, with the transaction that is returned |
| `Transactions.TransactionsService.FindTransaction` | src/transactions/transaction-query.service.ts:127-148 | Cache, then table, which fills the cache |
| `Transactions.TransactionsService.InvalidateCache` | src/transactions/transaction-query.service.ts:217-219 | Exactly the entry of that id is gone |
| `Transactions.TransactionsService.UpdateStatus` | src/transactions/transactions.service.ts:272-339 | The refusals, or the new row with its timestamps and the entry dropped |
| `Transactions.TransactionsService.SubmitTransaction` | src/transactions/horizon-submission.service.ts:47-172 | The status writes that follow each kind of answer |
| `Transactions.TransactionsService.PollPendingTransactions` | src/transactions/transaction-polling.service.ts:102-227 | One turn per row read, in order, and the four counters |

## Left out

- Controllers, request checks, guards, modules, logging, tracing, metrics, audit log, events sent out, health, backup:
  wiring and fixed branches.
- Horizon, Soroban, Friendbot and HTTP: their answers are arguments of the steps. Testnet funding cannot fail a creation.
- Cryptography: HMAC is an arbitrary function, generated keys are arguments, and parsing JSON is only assumed to invert
  printing it on token payloads (`Download.Lawful`). Malformed base64 is decoded as far as it goes. A signature of the
  wrong length is a refused signature.
- Floating point: amounts are whole stroops, percentages and averages exact rationals, TTLs whole milliseconds; the
  warnings at 80 percent of a limit are left out.
- Overlapping webhook passes: `dispatchEvent` starts a pass of its own and the worker's flag guards only its own ticks.
  `Webhooks` speaks of serial passes with database writes that succeed.
- Concurrent wallet calls: `rotateKey` reads the predecessor outside its transaction, so `Wallets` speaks of serial calls.
- Wallet deletion, other wallet status changes, manual endpoint edits and cleanup of stale wallets: they break the
  invariants by design and are separate operations.
- The phase named in the error of a refused wallet creation: the model names the phase that failed, the code reports
  several of them as `wallet-persist`.
- Creating and deleting API keys: the set of their ids in `RateLimit` is the set of all there ever are.
- Rate limits with a window of zero or less, which divide by zero.
- In `RateLimit` a check is one step; checks that overlap are the subject of `Overlap`, for one window of one stream.
- Deleting users while calls run, and the remaining columns of a login.
- Validate-and-rotate reads the clock once in the model, where the code reads it again for the rotation.
- The wallet cache service and `getWalletByUser`, which put and delete entries of the same kind in the shared cache.
- Balance reconciliation, scheduled and retried syncs, and mismatch columns: the reconciliation code holds merge leftovers.
  A null asset code or issuer is an ordinary value of the unique key.
- Trimming and masking of account ids in the history import; Horizon is assumed to append records with new paging tokens.
- CR as part of a record break: the CSV writer breaks records with LF alone, and CR is text to the reader.
- Which rows an export fetches, their order and their JSON text: they are arguments.
- Setting and updating spending limits within a day: the limit is fixed and positive in the theorems about it.
- A payment whose transaction row is written and whose submission then fails has the rows of a successful one. A check in a
  batch reads usage at one moment, where the code reads transactions and payments one after the other.
- Recovery, payment and wallet status tables, API keys, developers, projects, pagination: one lookup per step.
- Users.CallsAgree: `findOrCreateUser` is modelled as steps on values and not as a method, because its callers interleave
  at every await.
- Transactions.TransactionsService.CreateTransaction: what the memo, wallet and balance checks find is an argument.
- Download.TextRoundTrip: a text is a sequence of Unicode scalar values; JavaScript strings with lone surrogates, which
  UTF-8 encoding replaces, are not values of the model.
