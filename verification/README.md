# A verified model of the CCXT trading webhook

Dafny models of the stateful parts of the service, with proofs about whole runs of them.

* **Session pool.** Any number of tasks share one pool of exchange clients. `SessionPool` is the pool
  one call at a time; `PoolProtocol` interleaves tasks at every await of `webhook` and
  `_execute_order` from `get_exchange` to the end of `finally`, and `PoolSteps` ties the two together.
  Conservation is proved for every way of weighing clients at once; counting one client, or the clients
  of one key, are instances of it.
* **Replay and rate caches.** `TtlCaches` is the documented behaviour of cachetools' `TTLCache`.
  `SignatureGuard` and `RateLimiter` show what the two caches mean in terms of a log of accepted calls;
  `SignatureProcesses` puts several processes with such caches side by side, and `RateWitness` measures
  the limiter against a sliding window.
* **Tokens and nonces.** `TokenStore` compares the lazily cleaned tables with a history that is never
  cleaned. `NonceRace` interleaves the statements of several processes on one nonce table, and
  `NonceWitness` shows its bound to be exact. `TokenAuth` puts store and limiter together as `verify_token` does.
* **Webhook.** `Webhook` is one request from beginning to end. `OrderRuns` lets any number of requests
  interleave, dates admission and order separately, and shows how far apart the orders for one signed
  body or one nonce are kept; `OrderWitness` shows that this is exact. `OrderAlone` ties the two together:
  a request that nobody interrupts does what the straight-line webhook does.
* **Identity.** `AccessControl` is the permission gate, its audit log and the audit part of the
  compliance report. `KycReview` is the review state machine and the report on it, taken while others
  commit. `PasswordReset` is the reset state machine one request at a time; `ResetRace` splits its
  requests at SELECT and commit and interleaves any number of them.

Where the source changes state in place, a class does so too, and each of its methods is proved equal
to a function of the old state; the statements about runs are lemmas about those functions. Clocks,
random values, HMAC, SHA-256, bcrypt, JWT encoding, `int(str)` and `str.lower` are parameters, and so
is what every call to an exchange, to the queue or to `close` raises. Clocks are taken not to run
backwards; the cache's clock, the whole seconds of the wall clock and UTC time are kept apart. JWTs
are assumed to decode to their subject before their expiry and to nothing from then on.

Findings where a first reading of the code or of its documentation would promise more:

* The clients open for a key never exceed the peak number of tasks holding one
  (`PoolProtocol.OpenNeverExceedsHolders`), but only because `_create_exchange`, as written, awaits
  nothing between the lookup and the creation. Let it await, and the bound fails
  (`PoolWitness.HoldersAloneDoNotBoundOpen`); what always holds counts the tasks on their way to
  creating as well (`PoolProtocol.OpenNeverExceedsPeak`). `maxsize` bounds the idle clients of a key,
  not the clients in use.
* Replay protection dates admissions, not orders. Between the two a direct order waits for the pool and
  for `load_markets`, so two orders for one signed body can leave closer together than
  SIGNATURE_CACHE_TTL, by as much as the longest such delay and no more
  (`OrderWitness.DirectSpanIsExact`). The whole TTL is kept in all runs exactly if orders are queued
  (`OrderWitness.BodiesApartIffQueued`). Nonces are alike.
* `RATE_LIMIT` is described as requests per time window, but the counter's life restarts with every
  admission. The limiter admits by the length of a chain of admissions less than a window apart
  (`RateLimiter.AdmittedIffChainBelowLimit`). What a sliding window over (now - window, now] refuses, it
  refuses (`RateWitness.RefusesWhatSlidingWindowRefuses`); the two agree in all runs within capacity
  exactly for limits of at most one (`RateWitness.SlidingWindowIffLimitAtMostOne`).
* A run keeps its counters exactly if none of its windows admits more distinct tokens than
  TOKEN_RATE_CACHE_SIZE (`RateLimiter.EvictedIffOverCapacity`). The limit is guaranteed for d distinct
  tokens in a window exactly if d is at most that size (`RateWitness.LimitHoldsIffRoomForAllTokens`).
* A reset token is good once only as long as resets with it do not overlap. `reset_password` runs in
  threads and does not look again when it commits: n resets that have all made their SELECT all succeed,
  and the last password stays (`ResetWitness.OverlappingResetsSucceed`). As many as are open at once, and
  no more, succeed for each storing (`ResetWitness.SuccessesPerStoringAreExact`,
  `ResetWitness.SingleUseIffNoOverlap`).
* Token and expiry can come apart. Two `forgot_password` calls within one second make the same token, and
  SQLAlchemy leaves a column out of an UPDATE that was assigned the value it was read with; a reset that
  commits in between leaves an expiry without a token (`ResetWitness.RowsStayWholeIffAllWritten`).
  Without overlap the stored expiry never decides a reset: the token's own expiry always comes first
  (`PasswordReset.ResetSucceedsIff`).
* `compliance_report` makes four queries. Its totals need not add up when reviews or submissions are
  committed between them: it can be off by their number, and no more (`KycReview.ReportErrorIsExact`).
* The signature cache belongs to a process. Behind n processes a signature is good n times within its
  TTL (`SignatureProcesses.AdmissionsAreOnePerProcess`); nonces are shared through the database, where
  only a stale clock brings registrations closer than a lifetime (`NonceWitness.LifetimeSpanIsExact`).

The docstring of `verify_token` speaks of a shared secret; the code consults the token store and the
API tokens, and so does the model.

## Model

| member | source | states |
|---|---|---|
| SessionPool.ExchangeSessionPool.Acquire | app/execution/session_pool.py:42-62 | takes the oldest idle client of the key, or creates one of that key; a failed creation leaves only the empty queue behind |
| SessionPool.ExchangeSessionPool.Release | app/execution/session_pool.py:64-82 | keeps the client while its queue is below `maxsize`, closes it otherwise; an object without `_pool_key` is closed; queues stay filed by key and within capacity |
| SessionPool.ReturnedClientsComeBackInOrder | app/execution/session_pool.py:53-82 | of the clients returned to an empty queue exactly the first `maxsize` are handed out again, in the order of return, and then none |
| PoolProtocol.RunConserves | app/execution/session_pool.py:53-82 | in every interleaving, for every weighing of clients: created = held + idle + closed, and acquired = returned + not yet returned |
| PoolProtocol.EachClientIsInOnePlace | app/execution/session_pool.py:53-82 | at every moment of every run a created client is held by exactly one task, or idle at one position of one queue, or closed, and never two of these |
| PoolProtocol.SessionKeyIff | app/execution/exchange_factory.py:31-49 | 400 exactly for an unsupported exchange, 401 exactly when it is supported and key or secret is neither given nor configured, otherwise the exchange in lower case with the given credentials, or the configured ones where none are given |
| PoolProtocol.ClientsMatchTheirJob | app/execution/exchange_factory.py:31-56 | a task only ever holds a client of its own request's exchange and credentials: the given key and secret wherever they are not empty, the configured ones only otherwise |
| PoolProtocol.QueuesAreNeverReplaced | app/execution/session_pool.py:54-58 | no step removes a key's queue object or puts another in its place |
| PoolProtocol.IdleWithinCapacity | app/execution/session_pool.py:77-82 | in every interleaving a key has at most max(0, maxsize) idle clients, and its created clients are its held, idle and closed ones |
| PoolProtocol.CreateOnlyWhenIdleIsEmpty | app/execution/session_pool.py:59-62 | whenever a task turns to creating a client of a key, no client of that key is idle |
| PoolProtocol.OpenNeverExceedsPeak | app/execution/session_pool.py:54-62 | for every key and run, held + idle clients never exceed the peak number of tasks holding or about to create one |
| PoolProtocol.OpenNeverExceedsHolders | app/execution/session_pool.py:22-62 | when no task runs between a lookup and the creation it leads to, as in the code, held + idle clients never exceed the peak number of tasks holding one |
| PoolWitness.HoldersAloneDoNotBoundOpen | app/execution/session_pool.py:54-62 | a run with other tasks in between in which more clients are open than were ever held at once |
| PoolProtocol.SomeTaskCanMove | app/execution/session_pool.py:54-61 | while a task is unfinished some step is enabled; if the lock is taken, its holder can move |
| PoolProtocol.EveryStepAdvances | app/execution/session_pool.py:42-82 | every step, whatever it answers, strictly lowers the sum of the tasks' remaining steps |
| PoolProtocol.RunsAreBounded | app/execution/session_pool.py:42-82 | no schedule of n tasks is longer than 10 n steps |
| PoolProtocol.CompletedRuns | app/api/routes.py:114-150 | a run that cannot go on has finished every task, holds no lock and no client, has returned every client as often as it was acquired, and keeps at most min(peak, max(0, maxsize)) clients of a key, the peak being that of the holders where creation is at once |
| PoolProtocol.AtMostOneOrderPerTask | app/execution/tasks.py:29-47 | a task calls the exchange for an order at most once, only after loading markets, and exactly once when it reports success |
| PoolSteps.LookupIsTake | app/execution/session_pool.py:54-62 | the step under acquire's lock does to the queues what the sequential pool does |
| PoolSteps.ReturnAndCheckAreOffer | app/execution/session_pool.py:77-82 | the lock step and the check of release, run together, do what the sequential pool does |
| TtlCaches.TtlCache.Get | app/identity/auth.py:49-58 | a live hit becomes the most recently used and keeps its expiry; shape and size bound are kept |
| TtlCaches.TtlCache.Put | app/identity/auth.py:43-46 | a write drops what has expired, then the least recently used if there is no room, and stores the entry with a new expiry |
| TtlCaches.WrittenKeepsShape | app/identity/auth.py:43-52 | after any write keys are distinct and the size bound holds |
| SignatureGuard.CacheIsTheRecentLog | app/identity/auth.py:43-46 | in every run the live cache is exactly the last min(maxsize, n) accepted calls, n of them having been accepted within the TTL |
| SignatureGuard.AcceptedIffNotReplayed | app/identity/auth.py:84-120 | a call is accepted exactly when both headers are present, the timestamp is a number within 300 seconds of the wall clock, the signature is the HMAC of the body, and that is not among the last maxsize accepted ones within the TTL |
| SignatureGuard.ReplaysAreApart | app/identity/auth.py:109-115 | two accepted calls with one signature are a TTL apart or have maxsize accepted calls between them |
| SignatureProcesses.OneAdmissionPerProcess | app/identity/auth.py:43-46 | n processes, each with its own cache and no more than its size of other acceptances, admit one signature at most n times within a TTL |
| SignatureProcesses.AdmissionsAreOnePerProcess | app/identity/auth.py:43-46 | n such processes admit a signature at most m times within a TTL in all runs exactly if n is at most m |
| SignatureGuard.Verifier.VerifySignature | app/identity/auth.py:77-123 | accepts by headers, 300 seconds of freshness, HMAC and the history above, logs what it accepts, and leaves the cache alone when it rejects |
| RateLimiter.AdmittedIffChainBelowLimit | app/identity/auth.py:55-62 | a call is admitted exactly when the token's chain of admissions, each within a window of the next, is shorter than the limit |
| RateLimiter.EvictedIffOverCapacity | app/identity/auth.py:49-52 | in every run a live counter has been evicted exactly when some window admitted more distinct tokens than the cache holds |
| RateLimiter.AdmissionsPerWindow | app/identity/auth.py:55-62 | without that, any n consecutive windows hold at most n * limit admissions of a token |
| RateLimiter.LockoutIsExact | app/identity/auth.py:57-62 | a token at its limit is refused until exactly one window after its last admission, whatever was refused in between |
| RateLimiter.RateIsCountAndUnit | app/identity/auth.py:29-37 | a rate string is its count and its unit around one slash, a second, an hour, and otherwise a minute; no slash, a second slash or an unreadable count is an error |
| RateLimiter.TokenLimiter.EnforceTokenLimit | app/identity/auth.py:55-62 | does to its cache object the step that the runs are made of |
| RateRecency.CacheInRecencyOrder | app/identity/auth.py:58-61 | the counters always stand in the order of their tokens' last calls, refused calls included |
| RateRecency.EvictionTakesLeastRecent | app/identity/auth.py:49-61 | every live counter a write pushes out belongs to a token called longer ago than any whose counter stays |
| RateWitness.RefusesWhatSlidingWindowRefuses | app/identity/auth.py:55-62 | within capacity, a call is refused whenever limit admissions of its token lie within the window before it |
| RateWitness.NotASlidingWindow | app/identity/auth.py:55-62 | for every limit of two or more and every window, a run in which a token is refused though fewer than limit of its calls were admitted within the window |
| RateWitness.SlidingWindowIffLimitAtMostOne | app/identity/auth.py:55-62 | the limiter decides as a sliding window in all runs within capacity exactly if the limit is at most one |
| RateWitness.LimitHoldsIffRoomForAllTokens | app/identity/auth.py:49-62 | the limit per window holds in all runs that admit at most d distinct tokens in a window exactly if d is at most the size of the cache, or the limit admits nothing at all |
| RateWitness.OverCapacityTheLimitFails | app/identity/auth.py:49-62 | for every positive limit and every size of the cache, a run with one token too many, over capacity, in which a window holds more than limit admissions of a token |
| TokenStore.ValidIffIssuedAndUnexpired | app/identity/token_store.py:45-59 | a token is valid exactly when the history issued it, did not revoke it since, and its lifetime (None and 0 meaning the default) has not passed |
| TokenStore.InvalidStaysInvalid | app/identity/token_store.py:45-59 | an invalid token stays invalid until it is issued again |
| TokenStore.RegisteredIffNotInUse | app/identity/token_store.py:67-81 | a nonce is accepted exactly when no earlier successful registration of it is unexpired, whatever operations came between |
| TokenStore.CleanupIsUnobservable | app/identity/token_store.py:62-89 | dropping every operation but the registrations from a history changes no answer of register_nonce |
| TokenStore.Store.Issue | app/identity/token_store.py:25-35 | stores the drawn token with the end of its lifetime, the default where none or 0 is given |
| TokenStore.Store.IsValid | app/identity/token_store.py:45-59 | answers, and deletes the row it finds expired |
| TokenStore.Store.RegisterOnce | app/identity/token_store.py:67-81 | succeeds exactly when no unexpired row has the nonce, stores it with the end of its lifetime, and drops what has expired |
| NonceRace.SecondRegistrationIsLate | app/identity/token_store.py:62-81 | under every interleaving and with stale clocks, a second success of a nonce commits no earlier than the first worker's clock reading plus its lifetime |
| NonceWitness.LifetimeSpanIsExact | app/identity/token_store.py:67-81 | where clock readings are at most a given delay old at the commit, the span that all runs keep between commits of one nonce is exactly its lifetime less that delay |
| NonceRace.SuccessIsOneCommit | app/identity/token_store.py:76-81 | a worker reports success exactly when it committed, once; a key conflict is never a success |
| NonceRace.RefusalsAreJustified | app/identity/token_store.py:73-81 | a refusal is due to a registration that outlives the refused worker's clock reading or was committed after its sweep; a conflict to one committed after the loser looked |
| NonceRace.AloneIsRegisterNonce | app/identity/token_store.py:67-81 | a worker left alone does what the sequential function does |
| TokenAuth.WaysOut | app/identity/auth.py:139-196 | which way out a call takes, read off the rows in the order of the code: missing field, live store token with or without a free nonce, unknown or revoked row, expired row, rate, nonce, roles, acceptance |
| TokenAuth.FailuresLeaveNoTrace | app/identity/auth.py:139-196 | only acceptance by API token changes API tokens or usage log: one last-used time and one row, of a row that is not revoked, not expired and whose roles allow it |
| TokenAuth.PartsFollowHistories | app/identity/auth.py:143-168 | over any run the store and the counters are where the recorded store operations and limiter calls bring them |
| TokenAuth.Accounting | app/identity/auth.py:163-193 | over any run usage rows = acceptances by API token, and quota granted = those + nonce replays + role refusals on that path |
| TokenAuth.AcceptedIff | app/identity/auth.py:139-193 | a call is accepted exactly when it has token and unused nonce and either the store token lives or an API token row exists that is not revoked, not expired, within its rate and unrestricted or listing an active role of its user |
| TokenAuth.AcceptedNoncesAreApart | app/identity/auth.py:143-168 | two accepted calls with one nonce are at least NONCE_TTL apart, whichever path each took |
| TokenAuth.TokenVerifier.VerifyToken | app/identity/auth.py:126-196 | with its store, limiter, table and log does exactly what the function above says, and takes the way out that the rows prescribe |
| TokenAuth.TokenVerifier.HoldsAnyRole | app/identity/auth.py:172-181 | the counted query is positive exactly when the user actively holds a listed role |
| OrderRuns.PoolPartIsARun | app/api/routes.py:114-150 | whatever requests arrive and however they interleave, the pool goes through a run of the pool protocol, so all its results hold of the service |
| OrderRuns.EachAttemptHasItsAdmission | app/api/routes.py:97-136 | in every run an order attempt belongs to a request admitted no later than the attempt, a request makes at most one, and a queued order leaves at the time of its admission |
| OrderRuns.AdmissionsAreApart | app/api/routes.py:100-107 | requests with one signed body are admitted a TTL apart or have SIGNATURE_CACHE_SIZE accepted signatures between them, requests with one nonce NONCE_TTL apart |
| OrderRuns.SpentSignaturesAreRefused | app/api/routes.py:100-150 | once a request was admitted by signature, whatever became of its order and whatever requests came since, the same signature within the TTL, with fewer than SIGNATURE_CACHE_SIZE others accepted, is refused and changes nothing else |
| OrderRuns.SignedOrdersAreNotRepeated | app/api/routes.py:100-124 | orders for one signed body are apart by the TTL less the longest delay from admission to order, or have SIGNATURE_CACHE_SIZE accepted signatures between their admissions; queued orders by the whole TTL |
| OrderRuns.TokenOrdersAreNotRepeated | app/api/routes.py:104-124 | orders admitted by token with one nonce are apart by NONCE_TTL less the longest delay, queued ones by the whole NONCE_TTL |
| OrderRuns.NothingIsHeldAtTheEnd | app/api/routes.py:114-150 | when no request can arrive or go on, every one was refused, queued or worked off, the lock is free, no client is held and each was returned as often as acquired |
| OrderWitness.DirectSpanIsExact | app/api/routes.py:114-124 | where orders are not queued, the span between orders for one body that all runs with a given longest delay keep is exactly the TTL less that delay |
| OrderWitness.BodiesApartIffQueued | app/api/routes.py:109-124 | orders for one body are a TTL apart in all runs exactly if orders are queued |
| OrderWitness.DirectNonceSpanIsExact | app/api/routes.py:114-124 | the same exact span for orders of one nonce, in whole seconds |
| OrderWitness.NonceOrdersApartIffQueued | app/api/routes.py:109-124 | orders of one nonce are NONCE_TTL apart in all runs exactly if orders are queued |
| OrderAlone.AloneIsExecute | app/execution/tasks.py:29-47 | a task of the protocol that nobody interrupts ends in the pool, the order and the outcome of the straight-line model |
| OrderAlone.RequestAloneIsHandle | app/api/routes.py:97-150 | a request that nobody interrupts has the effects and the response of the straight-line webhook |
| Webhook.AdmitAdmits | app/api/routes.py:97-107 | 401 exactly for a required API key that is missing or wrong, then 400 exactly for plain HTTP where forbidden, then the signature header alone if present, otherwise the token, each answered with 403 when not accepted |
| Webhook.HandleResponds | app/api/routes.py:109-150 | the response to every admitted request: queueing, 400, 401 and 500 of get_exchange, then by the first exception of loading and ordering 400, 502, 422, its own status or 500, and 500 when closing a surplus client raises; at most one order, its own; a refused request changes nothing else |
| Webhook.Service.GetExchange | app/execution/exchange_factory.py:11-61 | unsupported exchange 400, missing credentials 401, failed creation 500, else a client of the request's exchange and credentials |
| Webhook.Service.ExecuteOrder | app/execution/tasks.py:18-47 | pool, order call and outcome after get_exchange, load, order and release, for every combination of failures |
| Webhook.Service.Authenticate | app/api/routes.py:97-107 | API key, HTTPS, then the signature header alone if present, otherwise the token |
| Webhook.Service.HandleWebhook | app/api/routes.py:80-150 | the whole request on the real objects is the straight-line webhook, to which RequestAloneIsHandle ties the interleaved runs, and answers with the statuses above |
| AccessControl.AllowedIffPermitted | app/identity/permissions.py:59-74 | the counted join decides as an active user role linked to a matching permission exists, despite duplicate rows |
| AccessControl.RequiredForIff | app/identity/permissions.py:37-42 | what is required is what the first route that matches requires, and nothing exactly when no route matches |
| AccessControl.UnprotectedIsForwarded | app/identity/permissions.py:43-45 | a request that no protected route matches is forwarded and not logged |
| AccessControl.ForwardedIffPermitted | app/identity/permissions.py:35-92 | a request whose first matching route requires a permission is forwarded exactly when its bearer token names a known user who has it, turned away with 403 exactly when it names one who has not, with 401 when it names nobody known, and crashes without one; decisions, with the roles they rest on, and nothing else, are logged |
| AccessControl.LogCountsDecisions | app/identity/permissions.py:75-88 | in every run the log counts for a pair exactly the requests forwarded and those refused with 403 |
| AccessControl.ReportCountsForwarded | app/identity/routes.py:622-640 | the report's granted row of a pair exists exactly when requests were forwarded for it and counts them |
| AccessControl.AuditReport | app/identity/routes.py:622-640 | distinct groups with their counts, which add up to the length of the log |
| AccessControl.PermissionMiddleware.Match | app/identity/permissions.py:37-42 | yields the requirement of a matching route before which none matches, and none exactly when no route matches |
| AccessControl.PermissionMiddleware.Forward | app/identity/permissions.py:35-92 | answer and log are those of the dispatch function |
| Grouping.CountByGroup | app/identity/routes.py:616-640 | one pass yields each group once with its count, covers the table and adds up to its size |
| Grouping.GroupCountIsNumber | app/identity/routes.py:612-621 | a count is the number of rows with that key |
| Grouping.GroupsAddUp | app/identity/routes.py:616-640 | any such grouping adds up to the size of the table |
| KycReview.ReviewWrites | app/identity/routes.py:576-603 | a review's commit writes status, time, reviewer and, when rejecting, the reason into its record, except columns that had that value when read, and changes nothing else |
| KycReview.ReviewMovesOneUnit | app/identity/routes.py:576-603 | the commit of a review, whatever row it had read, moves one unit between status totals or changes none, and never changes a level count |
| KycReview.TotalsAreSubmissions | app/identity/routes.py:488-603 | in every run, at every one moment, pending + approved + rejected = sum of the per-level counts of the table = submissions |
| KycReview.Desk.SubmitKyc | app/identity/routes.py:488-502 | adds a pending record under a new identifier |
| KycReview.Desk.ApproveKyc | app/identity/routes.py:574-584 | alone, marks the record approved, or finds none |
| KycReview.Desk.RejectKyc | app/identity/routes.py:587-603 | alone, marks the record rejected with its reason, or finds none |
| KycReview.Report | app/identity/routes.py:610-621 | the four queries of the report, each the number of rows with the status or level in the table as it stands when the query is made |
| KycReview.ReportAddsUpIff | app/identity/routes.py:610-621 | with any commits between its queries, the reported totals equal the sum of the reported levels exactly if what reached a status before its count, what left it and the submissions up to the last query cancel out |
| KycReview.ReportErrorIsExact | app/identity/routes.py:610-621 | with at most n commits between its queries the report is off by at most m in all cases exactly if n is at most m |
| PasswordReset.StoredTokenDecodesToItsUser | app/identity/routes.py:221-224 | with requests one at a time, a stored reset token comes with an expiry and decodes to its own user, and to nobody else, until that expiry's whole second |
| PasswordReset.ResetSucceedsIff | app/identity/routes.py:228-244 | with requests one at a time, a reset succeeds exactly when some user stores the token and the token has not expired, changes that user's password only, and unstores the token |
| PasswordReset.ResetTokensAreSpent | app/identity/routes.py:216-244 | with requests one at a time, between two successful resets with one token string there is a forgot_password call that stored it again for its user |
| PasswordReset.Accounts.ForgotPassword | app/identity/routes.py:216-225 | a call with no other between its SELECT and its commit stores a token and expiry for the user of the address, or does nothing |
| PasswordReset.Accounts.ResetPassword | app/identity/routes.py:228-244 | a call with no other between its SELECT and its commit sets the password and clears token and expiry together, or changes nothing |
| ResetRace.UnrefreshedResetsOverlap | app/identity/routes.py:228-244 | in every interleaving of SELECTs and commits, of two successful resets with one token and no storing of it in between, the second made its SELECT before the first committed |
| ResetRace.SuccessesPerStoring | app/identity/routes.py:216-244 | in every run with at most n resets of a token between SELECT and commit at once, it gives at most n successes for each time it was stored |
| ResetRace.StoredTokenNamesItsUser | app/identity/routes.py:216-225 | however requests overlap, a stored token decodes to its own user until some expiry and to nobody from then on |
| ResetRace.RowsStayWhole | app/identity/routes.py:216-244 | if an UPDATE writes every assigned column, token and expiry come and go together and belong to each other however requests overlap |
| ResetRace.AloneIsSequential | app/identity/routes.py:216-244 | a request whose SELECT and commit have nothing in between does what the sequential function does |
| ResetWitness.OverlappingResetsSucceed | app/identity/routes.py:228-244 | any number of overlapping resets succeed by one storing, and the password of the last to commit stays |
| ResetWitness.SuccessesPerStoringAreExact | app/identity/routes.py:216-244 | at most m successes per storing hold in all runs with at most n resets of a token open at once exactly if n is at most m |
| ResetWitness.SingleUseIffNoOverlap | app/identity/routes.py:228-244 | a token is good once per storing in all runs exactly if resets of one token never overlap |
| ResetWitness.RowsStayWholeIffAllWritten | app/identity/routes.py:216-244 | token and expiry belong together in every row of every run exactly if an UPDATE writes also the columns assigned the value they were read with |

## Left out

- PoolProtocol.OpenNeverExceedsPeak: counts tasks on their way to creating a client as well as holders, which is what holds if creation awaits something; OpenNeverExceedsHolders is the bound for the code as written.
- RateLimiter.AdmissionsPerWindow: needs that no window admits more distinct tokens than the cache holds; LimitHoldsIffRoomForAllTokens says that this is what a guarantee takes.
- OrderRuns.SignedOrdersAreNotRepeated: counts the call of `delay` as the order where orders are queued; when a worker takes a queued order up, and how long it then needs, is outside the run.
- OrderRuns.TokenOrdersAreNotRepeated: speaks of one process; across processes the admissions of one nonce are apart as NonceWitness.LifetimeSpanIsExact says, and those of one signature as SignatureProcesses.AdmissionsAreOnePerProcess says.
- PasswordReset.ResetTokensAreSpent: takes requests one at a time, and does not hold of overlapping ones; ResetRace.SuccessesPerStoring says what does.
- Registration is one step: its unique columns are checked by the database.
- Cancellation of a task while it waits for the pool's lock in `finally`; asyncio's `Lock` and `Queue` beyond their usual contracts, and lock fairness.
- Celery workers are separate processes with pools of their own; the protocol lets both kinds of task share one pool, which only adds interleavings.
- `place_market_order` and its retries: not called by `webhook`, and all behaviour is in the retry library.
- The slowapi request limit, pydantic validation, logging, metrics and the HTTPS middleware: libraries and I/O.
- SQLite statements that wait for a lock: modelled as raising or as taking effect at once.
- An uninitialised identity database, which makes `verify_token` return False.
- Address and user agent columns of the usage and audit logs, and the client address behind them.
- Reads of the clock within one step are one reading per clock.
- The body of a request is taken to be read before `verify_signature` asks for it, so that authentication is one step.
- Login, registration details, MFA, profile, role, permission and token management routes: single-row updates. The runs of `verify_token` allow any change of the API tokens between calls, so revocation is not permanent.
- Email verification, documents, virus scan, OCR and encrypted storage.
- `get_kyc_status` and the list routes: plain queries.
- Role hierarchy, expiry of user roles and activity of roles and permissions: the gate does not consult them.
