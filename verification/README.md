# A verified model of the compliance gateway's core

The gateway forwards chat requests to a model backend under a policy, a budget and an audit trail. This project models
the six parts of it whose guarantees span many calls and proves those guarantees for all inputs, all runs and all
interleavings.

- **Budget ledger** (`Ledger`, `LedgerInvariants`, `LedgerExact`, `LedgerStore`): reservations, settlements, expiry and
  limit changes in micro-euros under a daily and a monthly window that roll lazily. Each SQL function is one atomic step;
  its statement timestamp is an argument, so steps may carry any timestamps in any order. The calendar is a parameter in
  which days and months tile the time line and every month boundary is a day boundary. `BudgetStore` updates the tables in
  place and is proved to do what the functions in `Ledger` say.
- **JWKS cache** (`Jwks`, `JwksProtocol`): goroutines as program counters over the fields under the mutex, with TTL and
  force fetches overlapping in any order and fetches returning anything.
- **Audit trail** (`AuditEvent`, `AuditCanonical`, `AuditChain`, `AuditExport`, `AuditExportProofs`, `AuditStore`,
  `AuditStoreProofs`, on `Text`, `Json` and `Sorting`): canonical event text, hash chain, signed checkpoints, export
  documents, and the transactions that append to the tables. SHA-256 and Ed25519 are function-valued parameters. Results
  that depend on the hash say so by naming the alternative: two messages in the lists at hand that collide.
- **Chat request lifecycle** (`Chat`, `ChatWorld`, `ChatHandler`): the handler cut at its collaborator calls, any number
  of requests interleaved on one ledger with expiry and administration beside them. A collaborator call that reports an
  error is taken to have changed nothing.
- **All three together** (`AuditedChat`): requests on the ledger and the audit tables at once, each waiting for its own
  append transaction, so that replies, booked amounts and stored audit rows can be compared.
- **Price arithmetic** (`Price`): wrapping int64 multiplication with its overflow test, ceiling division, and the bound
  between estimate and actual cost.
- **Detectors and policy** (`Words`, `Iban`, `Policy`, `Patterns`): whole-word search, IBAN scan with MOD 97-10, and
  policy documents whose canonical order never changes a decision.

Functions on immutable states say what an operation does; classes and methods with loops follow the source's own shape
and are proved against those functions; lemmas state what the functions keep over whole runs. `dafny verify
dfyconfig.toml` checks everything.

Points where the code is narrower than a reader might expect, each with its exact condition proved:

- `mulInt64` is exact on all operands except -1 times the least int64, which passes the overflow test
  (`Price.MulDetectsOverflow`). Prices and token counts are positive, so the pricing functions never meet that pair.
- Line 138 of `internal/auth/jwks.go` clears `forceWait` even when it belongs to a newer leader, so a caller can be refused
  while its generation's force fetch is still running (`JwksProtocol.RefusedDuringForceFetch`).
- `VerifyChain` can report a number below one when a record carries one; the prefix guarantee then speaks of the records
  before that one (`AuditChain.ReportedPrefixIsChain`, `AuditChain.ReportBelowOneExactly`).
- `containsWord` is exact for the indicator terms and every term made of word characters, but not for all terms
  (`Words.JumpIsSafeExactly`).

## Model

| member | source | states |
|---|---|---|
| `LedgerInvariants.WindowsRoll` | migrations/000012_budget_reservation.up.sql:12-22 | Rolling keeps the shape of the windows (day inside month, both aligned with the calendar); a window either stays with its committed amount or starts afresh at or after its old end with zero, and a month never restarts without the day. |
| `LedgerInvariants.RollKeepsAccount` | migrations/000012_budget_reservation.up.sql:3-25 | Rolling at any time, early or late, keeps everything known about an account: limits, reserved = open rows, committed = bookings of the open window, day committed at most month committed. |
| `LedgerInvariants.ReserveKeepsInv` | migrations/000012_budget_reservation.up.sql:27-107 | `reserve_budget` keeps the ledger invariant for every argument and outcome. |
| `LedgerInvariants.SettleKeepsInv` | migrations/000012_budget_reservation.up.sql:109-182 | `settle_budget` keeps the ledger invariant: what leaves `reserved` is the whole hold, what enters `committed` is the settled amount, and bookings and settled rows stay in one-to-one correspondence. |
| `LedgerInvariants.SettlementKeepsBooks` | migrations/000012_budget_reservation.up.sql:161-177 | Settling a reserved row adds the one booking that names it: every booking names a settled row of the same principal and amount, no two name the same row, no settled row is without one. |
| `LedgerInvariants.ExpireRowKeepsInv` | migrations/000012_budget_reservation.up.sql:202-238 | One round of the expiry loop keeps the invariant on a reserved row. |
| `LedgerInvariants.ExpireEachKeepsInv` | migrations/000012_budget_reservation.up.sql:184-243 | The expiry loop keeps the invariant, and so does every prefix of it, for every result of the query in every order. |
| `LedgerInvariants.ExpireEachRows` | migrations/000012_budget_reservation.up.sql:196-239 | In whatever order the loop meets them, exactly the rows of the query expire; no other row, no settlement and no principal changes. |
| `LedgerInvariants.SetBudgetKeepsInv` | migrations/000003_budgets.up.sql:37-78 | `admin_set_budget` keeps the invariant, creating or changing an account. |
| `LedgerInvariants.InvAlways` | migrations/000012_budget_reservation.up.sql:1-258 | The invariant holds after every run of calls in any order with any timestamps. |
| `LedgerInvariants.ReservedMatchesOpenHolds` | migrations/000012_budget_reservation.up.sql:99-100 | After every run, daily reserved = monthly reserved = the sum of `reserved_max_micros` over the principal's open rows. |
| `LedgerInvariants.CommittedMatchesSettlements` | migrations/000012_budget_reservation.up.sql:167-177 | After every run, committed is what was booked since the window opened; every booking names a settled row of its principal and amount, no two bookings name the same row, and every settled row has one; committed + reserved stays within both limits, and day committed is at most month committed. |
| `LedgerInvariants.SettleOfOpenHoldSucceeds` | migrations/000012_budget_reservation.up.sql:136-159 | After every run a settlement succeeds exactly for an existing row in state reserved and a non-negative amount, so the under-reserved guard and the table CHECKs are never reached; the amount is within the hold. |
| `LedgerInvariants.ExpiryNeverSaturates` | migrations/000012_budget_reservation.up.sql:207-218 | Wherever the expiry loop stands, in any run and any order of rows, both reserved totals cover the next row: the branches that set them to zero are dead, and no CHECK fails. |
| `LedgerInvariants.ReserveMovesExactly` | migrations/000012_budget_reservation.up.sql:75-102 | On every table state, a reservation raises the open total of its own principal by exactly what it was granted, and moves no other principal's total and no settled money. |
| `LedgerInvariants.RunsOnlyAdvance` | migrations/000012_budget_reservation.up.sql:12-22 | Between any two points of any run, with out-of-order timestamps: windows never move back, a month rolls only with the day, each reservation leaves `reserved` at most once keeping owner and amount, and no settlement is rewritten. |
| `LedgerExact.RolledWindowsAreCurrent` | migrations/000012_budget_reservation.up.sql:12-22 | Rolling ends with whole calendar windows of which neither has passed, and rolling again at the same time changes nothing. |
| `LedgerExact.ReserveGrantedExactly` | migrations/000012_budget_reservation.up.sql:43-73 | After every run each outcome of `reserve_budget` is characterised by an if-and-only-if on spend recomputed from the settlement history and holds recomputed from the rows, not on the running totals. |
| `LedgerExact.ReserveArgsExactly` | migrations/000012_budget_reservation.up.sql:43-48 | Which arguments a reservation accepts. |
| `LedgerExact.RunIdsStayDistinct` | migrations/000003_budgets.up.sql:24-24 | After every run no two reservations share a run id. |
| `LedgerExact.AccountsMeetConstraints` | migrations/000003_budgets.up.sql:5-19 | After every run every account row satisfies the CHECK constraints of its table. |
| `LedgerExact.RowsMeetConstraints` | migrations/000003_budgets.up.sql:26-34 | After every run every reservation row satisfies the CHECK constraints of its table. |
| `LedgerExact.GrantedRowExactly` | migrations/000012_budget_reservation.up.sql:75-90 | A granted reservation adds one open row with the caller's principal, run, model and amount, which falls due exactly its time to live after the call. |
| `LedgerExact.HoldStaysDueThen` | migrations/000012_budget_reservation.up.sql:88-88 | Whatever follows, that row keeps its owner, run, amount and due time. |
| `LedgerExact.LimitsAcceptedExactly` | migrations/000003_budgets.up.sql:49-76 | After every run new limits are accepted exactly when well formed, for a known principal, and not below what is booked in the stored windows plus what open rows hold. |
| `LedgerExact.LimitsStoredExactly` | migrations/000003_budgets.up.sql:56-76 | An accepted call stores exactly its two limits; a new account gets the calendar windows around the call and zero totals, an existing one keeps windows and totals; nothing else changes, and a refused call changes nothing. |
| `LedgerExact.LimitsAreLastAccepted` | migrations/000003_budgets.up.sql:37-78 | After every run an account exists exactly if limits were accepted for it, and its limits are those of the last accepted call. |
| `LedgerExact.LimitErrorsExactly` | migrations/000003_budgets.up.sql:49-54 | Malformed limits, and only they, are refused as such. |
| `LedgerExact.SettleRefusedExactly` | migrations/000012_budget_reservation.up.sql:123-138 | After every run each refusal of a settlement has its own cause. |
| `LedgerExact.BookingConserves` | migrations/000012_budget_reservation.up.sql:167-177 | On any account, booking moves the whole hold out of both reserved totals and the amount into both committed ones. |
| `LedgerExact.ReleaseConserves` | migrations/000012_budget_reservation.up.sql:209-218 | On any account, releasing takes the hold, or what there is of it, out of each reserved total and touches nothing else. |
| `LedgerExact.ExpireExactly` | migrations/000012_budget_reservation.up.sql:196-241 | After every run and for every result of the query in every order: exactly its rows expire and are counted; each account that owned one is rolled once and its totals equal what its remaining open rows hold; everything else is unchanged. |
| `LedgerExact.OrderOfExpiryIsIrrelevant` | migrations/000012_budget_reservation.up.sql:196-200 | Two expiry calls whose queries return the same rows in different orders leave identical tables. |
| `LedgerExact.UnhinderedExpiryIsComplete` | migrations/000012_budget_reservation.up.sql:196-200 | A query that returns every due row is possible, and leaves nothing due. |
| `LedgerStore.BudgetStore.ReserveBudget` | migrations/000012_budget_reservation.up.sql:27-107 | The in-place call takes every table state to the state and result that `Ledger.Reserve` gives. |
| `LedgerStore.BudgetStore.SettleBudget` | migrations/000012_budget_reservation.up.sql:109-182 | The in-place call takes every table state to the state and result that `Ledger.Settle` gives. |
| `LedgerStore.BudgetStore.ExpireReservation` | migrations/000012_budget_reservation.up.sql:202-236 | One round of the loop on the mutable tables is `Ledger.ExpireRow`. |
| `LedgerStore.BudgetStore.ExpireBudgetReservations` | migrations/000012_budget_reservation.up.sql:184-243 | The loop over whatever the query returned, with its counter, gives the tables and count of `Ledger.Expire`. |
| `LedgerStore.BudgetStore.AdminSetBudget` | migrations/000003_budgets.up.sql:37-78 | The in-place upsert takes every table state to the state and result that `Ledger.SetBudget` gives. |
| `LedgerExact.CalendarExists` | migrations/000012_budget_reservation.up.sql:13-20 | Calendars as the model assumes them exist: days in months of any equal length. |
| `Jwks.JWKSCache.Decide` | internal/auth/jwks.go:103-132 | The critical section at the top of the loop on the mutable cache is `Jwks.Enter` on its fields. |
| `Jwks.JWKSCache.EndForce` | internal/auth/jwks.go:136-154 | The critical section after a force fetch is `Jwks.FinishForce`; the key returned is looked up in the resulting cache. |
| `Jwks.JWKSCache.EndTtl` | internal/auth/jwks.go:173-196 | The critical section after a TTL fetch is `Jwks.FinishTtl`; the key returned is looked up in the resulting cache. |
| `JwksProtocol.InvAlways` | internal/auth/jwks.go:97-198 | The protocol invariant (channel ownership, leaders, force claims, provenance of the cached set) holds after every interleaving. |
| `JwksProtocol.CachedSetBelongsToGeneration` | internal/auth/jwks.go:144-148 | In every interleaving the cached set is that of the TTL fetch that opened the current generation or of that generation's own force fetch; a late result of an older generation is never installed. |
| `JwksProtocol.ReturnedKeyIsCurrent` | internal/auth/jwks.go:105-111 | A returned key was published under the requested id in a fetched set, and was read less than the TTL after that generation was opened or belongs to a set installed after the call began. |
| `JwksProtocol.TimelyAlways` | internal/auth/jwks.go:105-188 | In every interleaving `fetchedAt` is the clock reading at which the current generation was opened, keys served from the cache were younger than the TTL, and a generation's force refresh is used up exactly by a force fetch or by the miss that opened it. |
| `JwksProtocol.TopExactly` | internal/auth/jwks.go:103-170 | In every reachable state, what a goroutine does at the top of the loop is fixed by the age of the cache and the history: served, waiting, refused, leading the generation's one force fetch, or waiting for or leading a TTL fetch. |
| `JwksProtocol.MissUsesUpForceRefresh` | internal/auth/jwks.go:185-189 | A generation opened by a fetch that lacked its leader's key id never starts a force fetch. |
| `JwksProtocol.WaitersWait` | internal/auth/jwks.go:200-207 | A waiting call goes on waiting until its channel is closed or the call is cancelled. |
| `JwksProtocol.FetchesAreBounded` | internal/auth/jwks.go:113-132 | Force fetches started never exceed the number of generations, no generation starts two, and at most one TTL fetch is in flight. |
| `JwksProtocol.ChannelsCloseOnce` | internal/auth/jwks.go:136-137 | In every interleaving no wait channel is ever closed twice. |
| `JwksProtocol.NoWaiterIsLost` | internal/auth/jwks.go:136-138 | A blocked goroutine waits on a channel that is closed or owned by a goroutine still fetching. |
| `JwksProtocol.SomeoneCanMove` | internal/auth/jwks.go:97-206 | While any call is unfinished, some goroutine can take a step without a new caller or a cancellation. |
| `JwksProtocol.PublicKey` | internal/auth/jwks.go:97-198 | One pass of the loop on the mutable cache, from any reachable state: the cache and the answer are those of the protocol's steps, and a key returned was published under the id and is current. |
| `JwksProtocol.RefusedDuringForceFetch` | internal/auth/jwks.go:114-125 | A caller with an unknown key id is refused although its generation's force fetch is in flight exactly when some force fetch has ended since that one was claimed; otherwise it waits on that fetch. |
| `JwksProtocol.RefusalDuringForceFetchHappens` | internal/auth/jwks.go:136-142 | A concrete run in which a slow force fetch of one generation clears `forceWait` of the next and a caller is refused early. |
| `Price.MulDetectsOverflow` | internal/budget/price.go:77-86 | The test after the wrapping multiply accepts exactly the products that fit int64, and one more pair: -1 times the least int64. On positive operands it is exact. |
| `Price.AddInt64` | internal/budget/price.go:88-96 | Fails exactly when the true sum does not fit, and otherwise is the true sum. |
| `Price.LegCostIsLeastCover` | internal/budget/price.go:58-75 | A leg costs the least integer not below tokens * rate / 10^6, and fails exactly when the rounded-up numerator does not fit int64. |
| `Price.LegCostMonotone` | internal/budget/price.go:58-75 | If a leg can be priced, fewer tokens can be priced too and cost no more. |
| `Price.ActualWithinEstimate` | internal/budget/price.go:23-56 | If an estimate succeeds and usage stays within its input and maximum output, the actual cost succeeds and never exceeds the estimate. |
| `Price.MicrosFor` | internal/budget/price.go:65-74 | The least whole number of micro-euros that covers an amount in millionths, by its two inequalities. |
| `Price.UsagePriceIsCover` | internal/budget/price.go:39-56 | The price of a usage is the sum of the covers of input tokens times input rate and of output tokens times output rate, and exists exactly when both rounded numerators and the sum fit int64. |
| `Price.ActualCostIsExact` | internal/budget/price.go:32-37 | For every price and usage, the settlement cost is that exact price and fails exactly where there is none. |
| `Price.EstimateIsExact` | internal/budget/price.go:23-28 | For every price and input, the estimate is the exact price of that input with the model's maximum output. |
| `Price.PriceSample` | internal/budget/price.go:32-56 | A worked price: 100 prompt and 10 completion tokens at 2 and 10 euros per million cost 300 micro-euros. |
| `Chat.SettlementIsActualCost` | internal/api/server.go:304-313 | With the estimate as hold and usage within what it assumed, the amount settled is exactly the price of the usage. |
| `Chat.SettlementIsUsageCost` | internal/api/server.go:304-313 | For every reported usage the handler settles the exact price of that usage where it has one within the hold, and otherwise the whole hold; a non-positive prompt count is priced as one token. |
| `Chat.UsageCostIsCover` | internal/api/server.go:304-313 | The same through the two covering inequalities of the legs alone. |
| `Chat.UsageCostWithinHold` | internal/api/server.go:304-312 | Whatever the backend does, the amount owed is between zero and the hold. |
| `Chat.EstimateIsEstimated` | internal/api/server.go:227-233 | The hold requested is the exact price of one token per four body bytes, and one more, with the model's maximum output. |
| `Chat.AdmittedKeepsOrder` | internal/api/server.go:166-233 | Admission, denial of unknown models and pricing leave an orderly trace without a hold. |
| `Chat.AppendKeepsOrder` | internal/api/server.go:261-338 | Every audit append, committed or lost, leaves the trace orderly and the hold untouched. |
| `Chat.AdvanceKeepsOrder` | internal/api/server.go:166-338 | Every step that does not touch the ledger keeps the trace orderly and the hold and its settlement as they were. |
| `Chat.ReservingKeepsOrder` | internal/api/server.go:234-259 | The reserve step keeps the trace orderly, records exactly the hold that was granted, and otherwise leaves the ledger alone. |
| `Chat.SettlingKeepsOrder` | internal/api/server.go:263-318 | The settle step is the only one, settles exactly the amount due, and counts as failed exactly when the ledger reported an error. |
| `ChatWorld.WorldOkAlways` | internal/api/server.go:138-339 | For any interleaving of any number of requests with settle, expiry, limit and principal changes, requests and ledger rows match one to one and every open row belongs to a request not yet settled or whose settle failed. |
| `ChatWorld.EveryRequestIsOrderly` | internal/api/server.go:166-338 | For every outcome of the collaborators: the hold is the exact estimate for the admitted body; the backend is called at most once and only after policy allow, a held reservation and a committed `run_started`; 200 only after settling exactly what the reported usage costs within the hold and a committed `run_completed`; 402 and 403 only after a committed `run_denied`; one settle attempt per hold; the events are none, denied, started, started-failed or started-completed. |
| `ChatWorld.OpenHoldHasOwner` | internal/api/server.go:234-335 | Every open hold, in every interleaving, belongs to a request in flight or to one whose single settle call failed. |
| `ChatWorld.NothingStaysReserved` | internal/api/server.go:234-335 | When all requests have ended and no settle failed, every reserved total is zero. |
| `ChatWorld.TakeHoldFacts` | internal/api/server.go:234-259 | A reserve step appends exactly one open row of the requested amount, or changes nothing. |
| `ChatWorld.SettleHoldFacts` | internal/api/server.go:263-318 | After the settle step the hold is settled or the call counts as failed; other rows are untouched. |
| `ChatHandler.Admission` | internal/api/server.go:138-233 | From the admission outcome to early reply, denial, or a hold request for the estimated maximum. |
| `ChatHandler.TakeHold` | internal/api/server.go:234-259 | The reserve call on the mutable ledger is the reserve step of the request machine. |
| `ChatHandler.SettleHold` | internal/api/server.go:283-318 | The settle call on the mutable ledger is the settle step of the request machine. |
| `ChatHandler.StartAndCall` | internal/api/server.go:261-313 | Start audit and backend call always end in one settlement for the same hold, with the follow-up that the outcomes prescribe. |
| `ChatHandler.HandleChatCompletions` | internal/api/server.go:138-339 | Whatever the collaborators do, an undisturbed request ends with the reply that the outcome table gives (200 exactly when everything succeeded), an orderly trace, the ledger invariant, and, unless its settle call was lost, the same open total for every principal as before. |
| `Words.FirstFrom` | internal/detect/health.go:61-64 | The first occurrence at or after a position, or -1 when there is none. |
| `Words.ContainsWord` | internal/detect/health.go:58-74 | Terminates; equals the jumping search, and for every term that is safe to jump past it is true exactly when some position holds the term with word boundaries on both sides. |
| `Words.ContainsAnyWord` | internal/detect/health.go:49-56 | True exactly when some term of the list is found as a whole word. |
| `Words.SearchIsExact` | internal/detect/health.go:58-74 | Jumping past a failed match misses nothing if the term is safe. |
| `Words.JumpIsSafeExactly` | internal/detect/health.go:65-73 | The search is exact on all texts if and only if every overlapping copy of the term inside itself follows a word byte. |
| `Words.WordTermsAreSafe` | internal/detect/health.go:76-78 | Every term made of word characters is safe. |
| `Words.UnsafeTermIsMissed` | internal/detect/health.go:65-73 | For every unsafe term, a text on which the search misses a whole word. |
| `Words.ContainsTerm` | internal/detect/health.go:49-56 | On any list of non-empty lower-case terms, true exactly when one stands in the text as a whole word. |
| `Words.HealthIndicators` | internal/detect/health.go:25-33 | Each of the two health indicators is raised exactly when one of its terms stands in the text as a whole word. |
| `Words.WordCharsExactly` | internal/detect/health.go:76-78 | Exactly the lower-case letters, digits, the underscore and all bytes outside ASCII belong to words. |
| `Iban.Mod97` | internal/detect/pii.go:99-105 | The streaming remainder equals the decimal value of the digits modulo 97. |
| `Iban.CheckShape` | internal/detect/pii.go:54-71 | The loop accepts exactly the strings of IBAN shape. |
| `Iban.ShapeExactly` | internal/detect/pii.go:54-71 | The shape: two capital letters, two digits, then capital letters and digits, 15 to 34 characters. |
| `Iban.DigitsDenote` | internal/detect/pii.go:83-95 | A digit stands for itself and the letters A to Z for 10 to 35. |
| `Iban.CheckIban` | internal/detect/pii.go:73-97 | Accepts exactly the strings of IBAN shape and country length whose rearranged number is 1 modulo 97 (ISO 13616, MOD 97-10 of ISO/IEC 7064). |
| `Iban.GermanSample` | internal/detect/pii.go:15-18 | A published German sample number is valid. |
| `Iban.AustrianSample` | internal/detect/pii.go:15-18 | A published Austrian sample number is valid. |
| `Iban.SubstitutionIsDetected` | internal/detect/pii.go:73-97 | Changing one digit of a valid IBAN to another digit, or one letter to another letter, always makes it invalid. |
| `Iban.TranspositionIsDetected` | internal/detect/pii.go:73-97 | Swapping two different adjacent digits of the account part or of the check digits always makes a valid IBAN invalid. |
| `Iban.ScanIbans` | internal/detect/pii.go:36-51 | Counted windows are valid and disjoint, in order, and every valid DE or AT window starts inside a counted one. |
| `Iban.CompactAlnumUpper` | internal/detect/normalize.go:22-35 | The loop yields the upper-cased letters and digits of the text in order. |
| `Iban.SeparatorsDoNotMatter` | internal/detect/normalize.go:22-35 | Inserting separators anywhere does not change what the scan sees. |
| `Policy.NormalizeSelector` | internal/policy/engine.go:199-220 | Accepts exactly short lists of distinct, well-formed values and returns them sorted. |
| `Policy.NormalizeRule` | internal/policy/engine.go:163-197 | Accepts exactly well-formed rules and returns them with sorted selectors. |
| `Policy.NormalizeDocument` | internal/policy/engine.go:136-161 | Accepts exactly well-formed documents with distinct rule ids and returns the canonical document. |
| `Policy.Contains` | internal/policy/engine.go:257-264 | The loop finds a value exactly when it is listed. |
| `Policy.Intersects` | internal/policy/engine.go:266-280 | The two loops find a shared value exactly when there is one. |
| `Policy.RuleMatches` | internal/policy/engine.go:117-134 | A rule matches exactly when it lists the endpoint and the model, selects someone, lists the principal where it names principals and shares a group where it names groups. |
| `Policy.AdmitsExactly` | internal/policy/engine.go:117-134 | Matching in terms of sets: endpoint and model listed, and identity decided by the selectors that are present. |
| `Policy.OtherModelIsDenied` | internal/policy/engine.go:117-120 | A single rule for another model or endpoint allows nothing. |
| `Policy.CheckRequestGroups` | internal/policy/engine.go:232-255 | The loop accepts exactly present, short, well-formed and strictly ascending group lists. |
| `Policy.Evaluate` | internal/policy/engine.go:55-105 | Allows exactly well-formed requests that some allow rule admits and no deny rule admits; the reason is an explicit deny exactly when a deny rule admits; the matched ids are exactly those of the admitting rules. |
| `Policy.SizeLimits` | internal/policy/types.go:36-40 | Documents hold 1 to 256 rules and selectors up to 64 values. |
| `Policy.NormalisationKeepsDecisions` | internal/policy/engine.go:55-161 | For every request the decision on the canonical document equals the decision on the document as written. |
| `Policy.OrderNeverMatters` | internal/policy/engine.go:136-161 | Any permutation of rules and of selectors inside rules gives the same acceptance, the identical canonical document, and identical decisions for every request. |
| `Policy.RuleOrderIgnored` | internal/policy/engine.go:156-159 | Permuting the rules alone gives the identical canonical document. |
| `Policy.RulePermuted` | internal/policy/engine.go:199-220 | Permuting selectors inside a rule gives the identical normalised rule. |
| `Sorting.SortMembers` | internal/policy/engine.go:218-218 | Sorting permutes: same elements, same multiplicities. |
| `Sorting.SortStrict` | internal/policy/engine.go:218-218 | Sorting distinct keys gives strictly increasing keys. |
| `Sorting.SortCanonical` | internal/policy/engine.go:156-159 | The sorted form depends on the members only. |
| `Sorting.LessExactly` | internal/policy/engine.go:157-159 | The order of strings is that of their first difference, with a proper prefix first. |
| `Patterns.UuidsExactly` | internal/audit/event.go:14-14 | The UUID pattern, group by group. |
| `Patterns.IdentifiersExactly` | internal/audit/event.go:15-15 | The identifier pattern: alphabet and lengths. |
| `Patterns.CodesExactly` | internal/audit/event.go:16-16 | The code and endpoint patterns: alphabets and lengths. |
| `Patterns.GroupsExactly` | internal/policy/types.go:32-32 | The group pattern: alphabet and lengths. |
| `Patterns.NamesExactly` | internal/policy/types.go:29-34 | The model, version and rule id patterns: alphabet and lengths. |
| `Text.HexRoundTrip` | internal/audit/chain.go:28-31 | Decoding the lower-case hexadecimal form of any bytes gives the bytes back. |
| `Text.Unhex` | internal/audit/export.go:241-252 | Decoding succeeds only on text that re-encodes to itself. |
| `Text.Base64RoundTrip` | internal/audit/export.go:118-125 | Decoding the padded base64 form of any bytes gives the bytes back. |
| `Text.TimeRoundTrip` | internal/audit/canonical.go:19-19 | Parsing the formatted form of any UTC instant with a four-digit year (section 5.6 of RFC 3339, nanoseconds without trailing zeros) gives the instant back. |
| `Text.HexSample` | internal/audit/chain.go:28-31 | A worked hexadecimal form. |
| `Text.Base64Sample` | internal/audit/export.go:118-125 | Worked base64 forms, one of them a vector of section 10 of RFC 4648. |
| `Text.TimeSample` | internal/audit/canonical.go:19-19 | A worked timestamp with a fraction. |
| `Text.LeapYears` | internal/audit/export.go:165-168 | Every fourth year is a leap year, except for centuries, except for every fourth century. |
| `Text.MonthLengths` | internal/audit/export.go:165-168 | Months have the lengths of the Gregorian calendar. |
| `Json.DecodePrint` | internal/audit/export.go:228-239 | Decoding inverts compact printing for every value whose strings need no escaping. |
| `Json.PrintScalars` | internal/audit/canonical.go:48-48 | The compact text of null, numbers, strings and empty collections. |
| `Json.PrintPair` | internal/audit/canonical.go:48-48 | The compact text of a list of two values. |
| `Json.PrintMemberPair` | internal/audit/canonical.go:48-48 | The compact text of an object of two members. |
| `AuditEvent.CheckCodeSet` | internal/audit/event.go:164-179 | The loop with its seen-set accepts exactly lists of at most 64 distinct codes. |
| `AuditCanonical.CanonicalRoundTrip` | internal/audit/canonical.go:10-49 | Decoding the canonical text of a valid event returns the event with its code lists sorted. |
| `AuditCanonical.OnlyCanonicalAccepted` | internal/audit/export.go:161-226 | The decoder accepts a text exactly when it is the canonical text of some event, and then of the event it returns. |
| `AuditCanonical.CanonicalInjective` | internal/audit/canonical.go:10-49 | Two valid events have the same canonical text exactly when they agree up to the order of their code lists. |
| `AuditCanonical.SortListsKeepsCanonical` | internal/audit/canonical.go:86-90 | Sorting the code lists keeps validity and the canonical text. |
| `AuditCanonical.ToJsonPlain` | internal/audit/event.go:92-128 | Validation leaves no string in the canonical record that JSON would escape. |
| `AuditCanonical.CanonicalLayout` | internal/audit/canonical.go:51-84 | The hashed text is one JSON object of 32 members in this order, under the names of the export format, each with its field's value; code lists are sorted and absent values null. |
| `AuditCanonical.SortedKeysStrict` | internal/audit/canonical.go:92-98 | Match counts are written in ascending order of their names, each once. |
| `AuditCanonical.EntriesCarry` | internal/audit/canonical.go:92-98 | Each match count is written under its own name. |
| `AuditChain.VerifyChain` | internal/audit/verify.go:23-46 | The loop reports what `AuditChain.Verdict` gives: nothing for a valid chain, otherwise the lesser of position and stored number at the first broken record. |
| `AuditChain.VerdictIsValidity` | internal/audit/verify.go:23-46 | Verification accepts exactly the lists numbered from one whose records link to their predecessor and carry their own event's hash. |
| `AuditChain.VerdictAtFirstBroken` | internal/audit/verify.go:27-43 | The first broken record alone decides the report. |
| `AuditChain.ReportedPrefixIsChain` | internal/audit/verify.go:28-34 | When sequence s is reported the list is no chain and its first s - 1 records are one; a report below one comes only from a record carrying that number. |
| `AuditChain.ReportBelowOneExactly` | internal/audit/verify.go:28-34 | A number below one is reported exactly when the first broken record stores a sequence below one. |
| `AuditChain.ReportBelowOneHappens` | internal/audit/verify.go:28-34 | Any single record that stores a sequence below one is reported as that number. |
| `AuditChain.EditIsReported` | internal/audit/verify.go:35-41 | Replacing one event of a chain while keeping its stored hash reports exactly that sequence, or nothing if the canonical text is the same, unless the two messages collide under the hash. |
| `AuditChain.DeletionIsReported` | internal/audit/verify.go:28-34 | Deleting a record that is not the last reports exactly the missing sequence. |
| `AuditChain.TruncationIsSilent` | internal/audit/verify.go:23-46 | Dropping records from the end is not reported by chain verification. |
| `AuditChain.LastHashDeterminesChain` | internal/audit/verify.go:23-46 | Two chains of the same length with the same last hash hold the same canonical events, unless two of their messages collide. |
| `AuditChain.LastHashDeterminesLength` | migrations/000008_transactional_audit_chain.up.sql:22-25 | Two chains with the same last hash and no zero hash have the same length, unless two of their messages collide. |
| `AuditChain.MessageLayout` | internal/audit/chain.go:93-104 | What is hashed is the domain, a zero byte and the canonical text. |
| `AuditExport.CreatedCheckpointVerifies` | internal/audit/signer.go:209-257 | Creating a checkpoint succeeds exactly for a positive sequence, non-zero hash, well-formed key id and time; what it creates verifies under the matching key and states what was asked. |
| `AuditExport.AcceptedExactlyIfSigned` | internal/audit/signer.go:239-254 | Where the key accepts only the signer's signatures, it accepts exactly the checkpoints that the signer makes. |
| `AuditExport.ForeignKeyRefuses` | internal/audit/signer.go:240-242 | A key that was never set up, or that has another identity, accepts nothing. |
| `AuditExport.PayloadInjective` | internal/audit/signer.go:264-283 | A signed statement names one sequence, head hash, key id and time. |
| `AuditExport.PayloadLayout` | internal/audit/signer.go:256-283 | The signed statement is one JSON object of five named members. |
| `AuditExport.SignedMessage` | internal/audit/signer.go:132-146 | What is signed is the domain, a zero byte and the statement. |
| `AuditExport.RecordLayout` | internal/audit/export.go:112-116 | The members of an exported record. |
| `AuditExport.EnvelopeLayout` | internal/audit/export.go:106-125 | The members of the export envelope and of its checkpoint. |
| `AuditExport.MarshalExport` | internal/audit/export.go:16-49 | The loop writes what `AuditExport.Export` gives: nothing unless the records are a chain that ends at the checkpoint. |
| `AuditExport.VerifyExport` | internal/audit/export.go:52-104 | The loops with their early returns give what `AuditExport.CheckExport` gives, including the reported sequence. |
| `AuditExportProofs.ReadWireBack` | internal/audit/export.go:106-125 | Every envelope is read back from its JSON value. |
| `AuditExportProofs.CheckpointBack` | internal/audit/export.go:127-159 | A checkpoint with a signable statement survives the wire form. |
| `AuditExportProofs.RecordsBack` | internal/audit/export.go:68-86 | The records of a chain are read back with sorted code lists. |
| `AuditExportProofs.ExportVerifies` | internal/audit/export.go:16-104 | What is exported is accepted under exactly the keys that accept its checkpoint, and otherwise refused for its signature. |
| `AuditExportProofs.AcceptedIsExport` | internal/audit/export.go:52-104 | An accepted text is byte for byte the export of the records and the checkpoint read from it. |
| `AuditExportProofs.AcceptsExactlyExports` | internal/audit/export.go:52-104 | Verification accepts a text if and only if it is the export of some chain under some checkpoint that the key accepts. |
| `AuditExportProofs.CheckpointAdmitsOneChain` | internal/audit/export.go:65-103 | Two accepted exports whose checkpoints sign the same statement hold the same records, and with the same signature are the same text, unless two events collide under the hash. |
| `AuditExportProofs.AcceptedExportWasSigned` | internal/audit/export.go:52-104 | Where the key accepts only the signer's signatures, every accepted export is a chain whose last record is a head that the signer signed. |
| `AuditStore.AuditDatabase.LockAuditChainHead` | migrations/000008_transactional_audit_chain.up.sql:27-40 | The lock call on the tables is `AuditStore.LockHead`: it proceeds only while no other transaction holds the head row. |
| `AuditStore.AuditDatabase.AppendAuditEvent` | migrations/000007_canonical_audit_events.up.sql:130-282 | Insert with its identifier lookups, triggers and constraints is `AuditStore.Insert`, on every table state. |
| `AuditStore.AuditDatabase.RegisterIdentifier` | migrations/000005_audit_permissions.up.sql:31-44 | Registration adds exactly the pair, if its type and pattern are allowed. |
| `AuditStore.AuditDatabase.CommitAppend` | internal/audit/repository.go:140-143 | Commit makes row, head and receipt visible at once. |
| `AuditStore.AuditDatabase.RollbackAppend` | internal/audit/repository.go:114-116 | Rollback releases the head row and leaves no row. |
| `AuditStore.AuditDatabase.IdTaken` | migrations/000004_audit_events.up.sql:14-14 | Decides whether an event id is already stored. |
| `AuditStore.AuditDatabase.Append` | internal/audit/repository.go:102-144 | One append without interference goes through begin, lock, insert and commit, fails at the given call, or is left waiting for a head row that another transaction holds; it returns a receipt exactly if it committed. |
| `AuditStore.AuditDatabase.PutCheckpoint` | migrations/000009_signed_audit_checkpoints.up.sql:40-99 | Stores a checkpoint exactly when it is well formed, names an existing row with that hash, and the sequence has none yet. |
| `AuditStore.AuditDatabase.ReadThrough` | internal/audit/repository.go:216-231 | Reading through a sequence is `AuditStore.RecordsThrough`, with the reported sequence on failure. |
| `AuditStoreProofs.BeginKeepsInv` | internal/audit/repository.go:102-116 | Beginning an append keeps the store invariant. |
| `AuditStoreProofs.LockKeepsInv` | migrations/000008_transactional_audit_chain.up.sql:27-40 | Taking the head lock keeps the store invariant. |
| `AuditStoreProofs.InsertKeepsInv` | migrations/000008_transactional_audit_chain.up.sql:42-85 | Inserting keeps the store invariant, also when a check fails. |
| `AuditStoreProofs.CommitKeepsInv` | internal/audit/repository.go:140-143 | Committing keeps the store invariant: the new row extends the chain and gets a receipt of its own. |
| `AuditStoreProofs.RollbackKeepsInv` | internal/audit/repository.go:114-116 | Rolling back at any point keeps the store invariant. |
| `AuditStoreProofs.CheckpointKeepsInv` | migrations/000009_signed_audit_checkpoints.up.sql:40-99 | Storing any checkpoint keeps the store invariant. |
| `AuditStoreProofs.RegistryKeepsInv` | migrations/000005_audit_permissions.up.sql:31-44 | Registering identifiers and principals keeps the store invariant. |
| `AuditStoreProofs.ValidatedPassesTableChecks` | migrations/000007_canonical_audit_events.up.sql:60-128 | Validation implies every CHECK of the events table, so a validated event with a non-zero hash never trips one. |
| `AuditStoreProofs.ValidatedExactly` | internal/audit/event.go:92-128 | Validation accepts exactly the events that satisfy the CHECKs of the table, spell ids as UUIDs and names as identifiers, and have a proper time. |
| `AuditStoreProofs.AcceptableStoredExactly` | internal/audit/event.go:98-101 | Validation admits only times that the table, which keeps whole microseconds, holds exactly. |
| `AuditStoreProofs.StoredUnchanged` | internal/audit/signer.go:264-275 | A signable checkpoint is stored as it is. |
| `AuditStoreProofs.InvAlways` | internal/audit/repository.go:102-144 | The store invariant holds after every interleaving of transactions and checkpoint writes. |
| `AuditStoreProofs.StoredChainVerifies` | internal/audit/repository.go:102-144 | For any interleaving of appends and rollbacks from the empty tables: the stored rows pass verification, the head row is the last row's sequence and hash or zero, and receipts name exactly the stored rows, each once, each row holding the submitted event linked to its predecessor; a receipt authorises the backend exactly for `run_started`. |
| `AuditStoreProofs.RunsExtend` | migrations/000005_audit_permissions.up.sql:3-29 | No committed row, receipt or checkpoint ever changes or disappears. |
| `AuditStoreProofs.AppendCommits` | internal/audit/repository.go:102-144 | Without a fault an append that finds the head free commits exactly when the event is valid with a zero previous hash, its model, backend, software version, key id and principal are registered, its id is new, the sequence is not exhausted and its hash is not zero. |
| `AuditStoreProofs.RecordsThroughExactly` | internal/audit/repository.go:216-231 | Reading through n gives the first n rows when there are as many, and otherwise reports the first one missing. |
| `AuditStoreProofs.ChainHeadExactly` | internal/audit/repository.go:147-162 | The head that can be signed is the last row, and exists exactly when there are rows. |
| `AuditStoreProofs.HeadCheckpointStorable` | migrations/000009_signed_audit_checkpoints.up.sql:69-92 | A checkpoint over the head of some state can be stored in every later state, if and only if its sequence has none yet. |
| `AuditStoreProofs.CheckpointedRowsExport` | internal/audit/repository.go:187-231 | A stored checkpoint is loaded unchanged, its rows are read and exported, and the export verifies exactly under the keys that accept the checkpoint. |
| `AuditStoreProofs.CheckpointStaysVerifiable` | migrations/000009_signed_audit_checkpoints.up.sql:69-92 | Sign the head after any run, store after any further run, read after yet another: loading, reading, exporting and verifying under the matching key all succeed, on exactly the rows present at signing. |
| `AuditStoreProofs.FirstAppendCommits` | internal/audit/repository.go:102-144 | With its names registered, a concrete valid start event commits as the first row under any hash that is not zero on it, and its receipt authorises the backend call. |
| `AuditedChat.AppendNotes` | internal/api/server.go:267-338 | An append adds its event to the request's history exactly when it committed. |
| `AuditedChat.CommitKeepsLink` | internal/audit/repository.go:132-143 | Committing a transaction stores exactly the event that its waiting request handed over, and no row of another run. |
| `AuditedChat.SettlementIsBooked` | internal/api/server.go:313-318 | The amount that a request records as settled is the amount in its ledger row. |
| `AuditedChat.FullOkAlways` | internal/api/server.go:138-339 | In every interleaving of requests, append transactions, rollbacks, ledger calls and administration, requests, ledger rows and audit rows match. |
| `AuditedChat.StoredEventsAreTheTrace` | internal/audit/repository.go:102-144 | In every interleaving the stored rows of a run are exactly the events its request has recorded, in order and with the request's own reserved and actual costs, plus at most the one it is about to hear of; every stored row belongs to a request. |
| `AuditedChat.OkReplyIsStored` | internal/api/server.go:261-338 | A 200 reply, in every interleaving: exactly two stored rows of the run, `run_started` before `run_completed` in the chain; a settled ledger row of the same run, booked exactly once, whose hold is the estimate for the admitted body; the completion row states the amount held, the usage the backend reported and the amount booked, which is what that usage costs at the admitted price. |
| `AuditedChat.DenialIsStored` | internal/api/server.go:190-254 | A 402 or 403 reply: exactly one stored row of the run, a denial without costs. |
| `AuditedChat.BackendCallIsStored` | internal/api/server.go:267-277 | Once the backend has been called for a request, the first stored row of its run is its start event. |
| `AuditedChat.StartAlwaysAuthorises` | internal/audit/repository.go:85-91 | The receipt of a committed start event always authorises the backend call, so that refusal after a committed start never happens. |
| `AuditStoreProofs.ReceiptAuthorisesExactly` | internal/audit/repository.go:85-91 | A receipt authorises a backend call exactly for a start event with a positive sequence and a non-zero hash. |
| `AuditStoreProofs.PairExists` | internal/audit/signer.go:132-161 | A signer and a verification key that belong together exist. |

## Left out

- PostgreSQL and pgx plumbing, role grants, HTTP serving, the backend client, key files, the JWT library, configuration, logging and the command line: no algorithm of the repository's own.
- SHA-256, HMAC and Ed25519 themselves: parameters of the model.
- The policy digest and the request context echoed in a decision, which are copies and a hash of the canonical document.
- Regular-expression detectors for email, phone, ICD codes and secrets: the regex engine's semantics would dominate.
- `lookupModel`, `handleModels`, authentication and body parsing: the request's admission outcome is a parameter. That a policy allow for an unroutable model becomes a denial is part of that outcome.
- Json.DecodePrint: covers the compact layout that the encoder writes, not general JSON decoding, which is library behaviour; the source re-encodes what it decoded and compares, so no other layout is ever accepted.
- AuditExport.VerifyExport: accepts the same texts as the source, but for a refused text with JSON outside that layout (escapes, fractions, booleans) it may report an invalid export where the source would name a sequence or the signature.
- Times outside UTC, and years outside 0 to 9999: a time in the model is a UTC calendar instant, so the location checks always pass.
- NULL arguments of the SQL functions other than the actual amount of a settlement, and bigint overflow inside SQL sums.
- Daylight saving and time zone changes of the database session: the calendar parameter is fixed for a run.
- Deadlocks between concurrent expiry calls, and commits whose outcome the caller never learns.
- Direct callers of `append_audit_event` other than the repository, which could store an event hash of their own choosing.
- Wrap-around of the cache's generation counter, and the check of key id length at the top of `PublicKey`.
- Limits on running time and memory, and the clearing of key material.
